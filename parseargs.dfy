/** Command-line scanning: exact-match option lookup, the flag tables, the split of the
    argument list into main arguments and per-overlay blocks, the value transforms and
    the per-target parser configuration. */
module ParseArgs {
  import opened Wrappers
  import opened PyText

  // ---------------------------------------------------------------------------------
  // `_get_option_tuples`: option lookup without prefix matching
  // ---------------------------------------------------------------------------------

  /** A matched option and the argument glued to it, if any (the action is the one
      registered under `option`). */
  datatype OptionTuple = OptionTuple(option: string, explicitArg: Option<string>)

  /** Where the first `c` is in `s`, or `|s|` when there is none. */
  function FirstIndex(s: string, c: char): (k: nat)
    ensures k <= |s|
    ensures forall i :: 0 <= i < k ==> s[i] != c
    ensures k < |s| ==> s[k] == c
  {
    if |s| == 0 then 0 else if s[0] == c then 0 else 1 + FirstIndex(s[1..], c)
  }

  /** `option_string.split('=', 1)` when there is a `=`, else the whole string and None. */
  function SplitExplicit(s: string): (string, Option<string>)
  {
    var k := FirstIndex(s, '=');
    if k < |s| then (s[..k], Some(s[k + 1..])) else (s, None)
  }

  /** The split gives back the option string, the prefix holds no `=`, and there is an
      argument exactly when the string holds a `=`. */
  lemma SplitExplicitParts(s: string)
    ensures !Contains(SplitExplicit(s).0, '=')
    ensures SplitExplicit(s).1.Some? <==> Contains(s, '=')
    ensures SplitExplicit(s).1.Some? ==> s == SplitExplicit(s).0 + "=" + SplitExplicit(s).1.value
    ensures SplitExplicit(s).1.None? ==> SplitExplicit(s).0 == s
  {
    var k := FirstIndex(s, '=');
    if k < |s| {
      assert s == s[..k] + "=" + s[k + 1..];
      forall i | 0 <= i < |s[..k]| ensures s[..k][i] != '=' { }
    }
  }

  /** The loop of the `--name[=value]` branch over the registered option strings. */
  function LongMatches(registered: seq<string>, prefix: string, arg: Option<string>): seq<OptionTuple>
  {
    if |registered| == 0 then []
    else
      var o := registered[|registered| - 1];
      LongMatches(registered[..|registered| - 1], prefix, arg) +
      (if o == prefix then [OptionTuple(o, arg)] else [])
  }

  /** The loop of the single-dash branch: the first two characters with the rest as the
      argument, or else the whole string with no argument. */
  function ShortMatches(registered: seq<string>, s: string): seq<OptionTuple>
    requires |s| >= 2
  {
    if |registered| == 0 then []
    else
      var o := registered[|registered| - 1];
      ShortMatches(registered[..|registered| - 1], s) +
      (if o == s[..2] then [OptionTuple(o, Some(s[2..]))]
       else if o == s then [OptionTuple(o, None)]
       else [])
  }

  /** `_get_option_tuples(option_string)`; `registered` is the key order of
      `_option_string_actions`. Indexing a too-short string raises `IndexError`, and a
      string that does not start with a prefix character goes to the patched `error`,
      which raises `ArgumentError`. */
  function OptionTuples(chars: set<char>, registered: seq<string>, s: string): Result<seq<OptionTuple>>
  {
    if |s| == 0 then Err(IndexError)
    else if s[0] !in chars then Err(ArgumentError)
    else if |s| == 1 then Err(IndexError)
    else if s[1] in chars then
      var (prefix, arg) := SplitExplicit(s);
      Ok(LongMatches(registered, prefix, arg))
    else Ok(ShortMatches(registered, s))
  }

  /** A long option matches only a registered string equal to its text before `=`,
      with the text after the first `=` (or nothing) as its argument. */
  lemma {:induction false} LongMatchesExact(registered: seq<string>, prefix: string, arg: Option<string>, t: OptionTuple)
    ensures t in LongMatches(registered, prefix, arg) <==>
            t.option in registered && t.option == prefix && t.explicitArg == arg
  {
    if |registered| > 0 {
      var init := registered[..|registered| - 1];
      LongMatchesExact(init, prefix, arg, t);
      assert registered == init + [registered[|registered| - 1]];
    }
  }

  /** A single-dash option matches its first two characters (argument: the rest) or the
      whole string (no argument) and nothing else; no abbreviation is ever matched. */
  lemma {:induction false} ShortMatchesExact(registered: seq<string>, s: string, t: OptionTuple)
    requires |s| >= 2
    ensures t in ShortMatches(registered, s) <==>
            t.option in registered &&
            ((t.option == s[..2] && t.explicitArg == Some(s[2..])) ||
             (t.option == s && |s| != 2 && t.explicitArg == None))
  {
    if |registered| > 0 {
      var init := registered[..|registered| - 1];
      ShortMatchesExact(init, s, t);
      assert registered == init + [registered[|registered| - 1]];
      assert |s| == 2 ==> s[..2] == s;
      assert s == s[..2] ==> |s| == 2;
    }
  }

  /** For a two-character option the two-character branch wins: the argument is `''`. */
  lemma TwoCharOption(chars: set<char>, registered: seq<string>, s: string, t: OptionTuple)
    requires |s| == 2 && s[0] in chars && s[1] !in chars
    requires OptionTuples(chars, registered, s).Ok? && t in OptionTuples(chars, registered, s).value
    ensures t == OptionTuple(s, Some(""))
  {
    ShortMatchesExact(registered, s, t);
    assert s[..2] == s && s[2..] == "";
  }

  /** The error cases: only an empty or one-prefix-character string fails with
      `IndexError`, and only a string not starting with a prefix character with
      `ArgumentError`. */
  lemma OptionTuplesErrors(chars: set<char>, registered: seq<string>, s: string)
    ensures OptionTuples(chars, registered, s) == Err(IndexError) <==>
            |s| == 0 || (|s| == 1 && s[0] in chars)
    ensures OptionTuples(chars, registered, s) == Err(ArgumentError) <==> |s| > 0 && s[0] !in chars
  {
  }

  /** The same lookup, as the Python code runs it: one loop over the registered strings. */
  method GetOptionTuples(chars: set<char>, registered: seq<string>, s: string) returns (r: Result<seq<OptionTuple>>)
    ensures r == OptionTuples(chars, registered, s)
  {
    if |s| == 0 || (s[0] in chars && |s| == 1) {
      return Err(IndexError);
    }
    if s[0] !in chars {
      return Err(ArgumentError);
    }
    var result: seq<OptionTuple> := [];
    var i := 0;
    if s[1] in chars {
      var (prefix, arg) := SplitExplicit(s);
      while i < |registered|
        invariant 0 <= i <= |registered|
        invariant result == LongMatches(registered[..i], prefix, arg)
      {
        assert registered[..i + 1][..i] == registered[..i];
        if registered[i] == prefix {
          result := result + [OptionTuple(registered[i], arg)];
        }
        i := i + 1;
      }
    } else {
      while i < |registered|
        invariant 0 <= i <= |registered|
        invariant result == ShortMatches(registered[..i], s)
      {
        assert registered[..i + 1][..i] == registered[..i];
        if registered[i] == s[..2] {
          result := result + [OptionTuple(registered[i], Some(s[2..]))];
        } else if registered[i] == s {
          result := result + [OptionTuple(registered[i], None)];
        }
        i := i + 1;
      }
    }
    assert registered[..i] == registered;
    r := Ok(result);
  }

  // ---------------------------------------------------------------------------------
  // `ARGUMENTS` and the flags that take a value
  // ---------------------------------------------------------------------------------

  /** `(shortForm, longForm, expectsArguments)` */
  datatype ArgForms = ArgForms(short: string, long: string, expects: bool)

  /** One entry of `ARGUMENTS`, keyed by target group and property. */
  datatype ArgEntry = ArgEntry(group: string, prop: string, forms: ArgForms)

  /** The groups whose flags belong to the main parser. */
  const MAIN_GROUPS: seq<string> := ["Main", "SceneOpts", "OrthoOpts", "LightBoxOpts"]

  /** The entries of `ARGUMENTS`, target by target in table order. */
  const MAIN_ARGS: seq<ArgEntry> := [
    ArgEntry("Main", "help", ArgForms("h", "help", false)),
    ArgEntry("Main", "fullhelp", ArgForms("fh", "fullhelp", false)),
    ArgEntry("Main", "verbose", ArgForms("v", "verbose", false)),
    ArgEntry("Main", "version", ArgForms("V", "version", false)),
    ArgEntry("Main", "skipfslcheck", ArgForms("S", "skipfslcheck", false)),
    ArgEntry("Main", "noisy", ArgForms("n", "noisy", false)),
    ArgEntry("Main", "memory", ArgForms("m", "memory", false)),
    ArgEntry("Main", "glversion", ArgForms("gl", "glversion", true)),
    ArgEntry("Main", "scene", ArgForms("s", "scene", true)),
    ArgEntry("Main", "voxelLoc", ArgForms("vl", "voxelLoc", true)),
    ArgEntry("Main", "worldLoc", ArgForms("wl", "worldLoc", true)),
    ArgEntry("Main", "autoDisplay", ArgForms("ad", "autoDisplay", false)),
    ArgEntry("Main", "displaySpace", ArgForms("ds", "displaySpace", true)),
    ArgEntry("Main", "neuroOrientation", ArgForms("no", "neuroOrientation", false)),
    ArgEntry("Main", "standard", ArgForms("std", "standard", false)),
    ArgEntry("Main", "standard1mm", ArgForms("std1mm", "standard1mm", false)),
    ArgEntry("Main", "bigmem", ArgForms("b", "bigmem", false)),
    ArgEntry("Main", "bumMode", ArgForms("bums", "bumMode", false))
  ]

  const SCENE_ARGS: seq<ArgEntry> := [
    ArgEntry("SceneOpts", "showColourBar", ArgForms("cb", "showColourBar", false)),
    ArgEntry("SceneOpts", "bgColour", ArgForms("bg", "bgColour", true)),
    ArgEntry("SceneOpts", "cursorColour", ArgForms("cc", "cursorColour", true)),
    ArgEntry("SceneOpts", "colourBarLocation", ArgForms("cbl", "colourBarLocation", true)),
    ArgEntry("SceneOpts", "colourBarLabelSide", ArgForms("cbs", "colourBarLabelSide", true)),
    ArgEntry("SceneOpts", "showCursor", ArgForms("hc", "hideCursor", false)),
    ArgEntry("SceneOpts", "performance", ArgForms("p", "performance", true))
  ]

  const ORTHO_ARGS: seq<ArgEntry> := [
    ArgEntry("OrthoOpts", "xzoom", ArgForms("xz", "xzoom", true)),
    ArgEntry("OrthoOpts", "yzoom", ArgForms("yz", "yzoom", true)),
    ArgEntry("OrthoOpts", "zzoom", ArgForms("zz", "zzoom", true)),
    ArgEntry("OrthoOpts", "layout", ArgForms("lo", "layout", true)),
    ArgEntry("OrthoOpts", "showXCanvas", ArgForms("xh", "hidex", false)),
    ArgEntry("OrthoOpts", "showYCanvas", ArgForms("yh", "hidey", false)),
    ArgEntry("OrthoOpts", "showZCanvas", ArgForms("zh", "hidez", false)),
    ArgEntry("OrthoOpts", "showLabels", ArgForms("hl", "hideLabels", false)),
    ArgEntry("OrthoOpts", "labelSize", ArgForms("ls", "labelSize", true)),
    ArgEntry("OrthoOpts", "xcentre", ArgForms("xc", "xcentre", true)),
    ArgEntry("OrthoOpts", "ycentre", ArgForms("yc", "ycentre", true)),
    ArgEntry("OrthoOpts", "zcentre", ArgForms("zc", "zcentre", true))
  ]

  const LIGHTBOX_ARGS: seq<ArgEntry> := [
    ArgEntry("LightBoxOpts", "sliceSpacing", ArgForms("ss", "sliceSpacing", true)),
    ArgEntry("LightBoxOpts", "ncols", ArgForms("nc", "ncols", true)),
    ArgEntry("LightBoxOpts", "nrows", ArgForms("nr", "nrows", true)),
    ArgEntry("LightBoxOpts", "zrange", ArgForms("zr", "zrange", true)),
    ArgEntry("LightBoxOpts", "showGridLines", ArgForms("sg", "showGridLines", false)),
    ArgEntry("LightBoxOpts", "highlightSlice", ArgForms("hs", "highlightSlice", false)),
    ArgEntry("LightBoxOpts", "zax", ArgForms("zx", "zaxis", true))
  ]

  const DISPLAY_ARGS: seq<ArgEntry> := [
    ArgEntry("Display", "name", ArgForms("n", "name", true)),
    ArgEntry("Display", "enabled", ArgForms("d", "disabled", false)),
    ArgEntry("Display", "overlayType", ArgForms("ot", "overlayType", true)),
    ArgEntry("Display", "alpha", ArgForms("a", "alpha", true)),
    ArgEntry("Display", "brightness", ArgForms("b", "brightness", true)),
    ArgEntry("Display", "contrast", ArgForms("c", "contrast", true))
  ]

  const NIFTI_ARGS: seq<ArgEntry> := [
    ArgEntry("NiftiOpts", "resolution", ArgForms("r", "resolution", true)),
    ArgEntry("NiftiOpts", "volume", ArgForms("v", "volume", true))
  ]

  const COLOUR_MAP_ARGS: seq<ArgEntry> := [
    ArgEntry("ColourMapOpts", "displayRange", ArgForms("dr", "displayRange", true)),
    ArgEntry("ColourMapOpts", "clippingRange", ArgForms("cr", "clippingRange", true)),
    ArgEntry("ColourMapOpts", "invertClipping", ArgForms("ic", "invertClipping", false)),
    ArgEntry("ColourMapOpts", "cmap", ArgForms("cm", "cmap", true)),
    ArgEntry("ColourMapOpts", "negativeCmap", ArgForms("nc", "negativeCmap", true)),
    ArgEntry("ColourMapOpts", "useNegativeCmap", ArgForms("un", "useNegativeCmap", false)),
    ArgEntry("ColourMapOpts", "cmapResolution", ArgForms("cmr", "cmapResolution", true)),
    ArgEntry("ColourMapOpts", "interpolateCmaps", ArgForms("inc", "interpolateCmaps", false)),
    ArgEntry("ColourMapOpts", "invert", ArgForms("i", "invert", false)),
    ArgEntry("ColourMapOpts", "linkLowRanges", ArgForms("ll", "unlinkLowRanges", true)),
    ArgEntry("ColourMapOpts", "linkHighRanges", ArgForms("lh", "linkHighRanges", true))
  ]

  const VOLUME_ARGS: seq<ArgEntry> := [
    ArgEntry("VolumeOpts", "overrideDataRange", ArgForms("or", "overrideDataRange", true)),
    ArgEntry("VolumeOpts", "clipImage", ArgForms("cl", "clipImage", true)),
    ArgEntry("VolumeOpts", "interpolation", ArgForms("in", "interpolation", true))
  ]

  const MASK_ARGS: seq<ArgEntry> := [
    ArgEntry("MaskOpts", "colour", ArgForms("mc", "maskColour", false)),
    ArgEntry("MaskOpts", "invert", ArgForms("i", "maskInvert", false)),
    ArgEntry("MaskOpts", "threshold", ArgForms("t", "threshold", true))
  ]

  const VECTOR_ARGS: seq<ArgEntry> := [
    ArgEntry("VectorOpts", "xColour", ArgForms("xc", "xColour", true)),
    ArgEntry("VectorOpts", "yColour", ArgForms("yc", "yColour", true)),
    ArgEntry("VectorOpts", "zColour", ArgForms("zc", "zColour", true)),
    ArgEntry("VectorOpts", "suppressX", ArgForms("xs", "suppressX", false)),
    ArgEntry("VectorOpts", "suppressY", ArgForms("ys", "suppressY", false)),
    ArgEntry("VectorOpts", "suppressZ", ArgForms("zs", "suppressZ", false)),
    ArgEntry("VectorOpts", "suppressMode", ArgForms("sm", "suppressMode", true)),
    ArgEntry("VectorOpts", "cmap", ArgForms("cm", "cmap", true)),
    ArgEntry("VectorOpts", "colourImage", ArgForms("co", "colourImage", true)),
    ArgEntry("VectorOpts", "modulateImage", ArgForms("mo", "modulateImage", true)),
    ArgEntry("VectorOpts", "modulateRange", ArgForms("mr", "modulateRange", true)),
    ArgEntry("VectorOpts", "clipImage", ArgForms("cl", "clipImage", true)),
    ArgEntry("VectorOpts", "clippingRange", ArgForms("cr", "clippingRange", true)),
    ArgEntry("VectorOpts", "orientFlip", ArgForms("of", "orientFlip", false))
  ]

  const LINE_VECTOR_ARGS: seq<ArgEntry> := [
    ArgEntry("LineVectorOpts", "lineWidth", ArgForms("lw", "lineWidth", true)),
    ArgEntry("LineVectorOpts", "directed", ArgForms("ld", "directed", false)),
    ArgEntry("LineVectorOpts", "unitLength", ArgForms("nu", "notunit", false)),
    ArgEntry("LineVectorOpts", "lengthScale", ArgForms("ls", "lengthScale", true))
  ]

  const RGB_VECTOR_ARGS: seq<ArgEntry> := [
    ArgEntry("RGBVectorOpts", "interpolation", ArgForms("in", "interpolation", true))
  ]

  const TENSOR_ARGS: seq<ArgEntry> := [
    ArgEntry("TensorOpts", "lighting", ArgForms("dl", "disableLighting", false)),
    ArgEntry("TensorOpts", "tensorResolution", ArgForms("tr", "tensorResolution", true)),
    ArgEntry("TensorOpts", "tensorScale", ArgForms("s", "scale", true))
  ]

  const MESH_ARGS: seq<ArgEntry> := [
    ArgEntry("MeshOpts", "colour", ArgForms("mc", "colour", true)),
    ArgEntry("MeshOpts", "outline", ArgForms("o", "outline", false)),
    ArgEntry("MeshOpts", "outlineWidth", ArgForms("w", "outlineWidth", true)),
    ArgEntry("MeshOpts", "refImage", ArgForms("r", "refImage", true)),
    ArgEntry("MeshOpts", "coordSpace", ArgForms("s", "coordSpace", true)),
    ArgEntry("MeshOpts", "vertexData", ArgForms("vd", "vertexData", true)),
    ArgEntry("MeshOpts", "vertexDataIndex", ArgForms("vdi", "vertexDataIndex", true))
  ]

  const LABEL_ARGS: seq<ArgEntry> := [
    ArgEntry("LabelOpts", "lut", ArgForms("l", "lut", true)),
    ArgEntry("LabelOpts", "outline", ArgForms("o", "outline", false)),
    ArgEntry("LabelOpts", "outlineWidth", ArgForms("w", "outlineWidth", true))
  ]

  const SH_ARGS: seq<ArgEntry> := [
    ArgEntry("SHOpts", "shResolution", ArgForms("sr", "shResolution", true)),
    ArgEntry("SHOpts", "shOrder", ArgForms("so", "shOrder", true)),
    ArgEntry("SHOpts", "size", ArgForms("s", "size", true)),
    ArgEntry("SHOpts", "lighting", ArgForms("l", "lighting", false)),
    ArgEntry("SHOpts", "orientFlip", ArgForms("of", "orientFlip", false)),
    ArgEntry("SHOpts", "radiusThreshold", ArgForms("t", "radiusThreshold", true)),
    ArgEntry("SHOpts", "colourMode", ArgForms("m", "colourMode", true)),
    ArgEntry("SHOpts", "colourMap", ArgForms("cm", "colourMap", true)),
    ArgEntry("SHOpts", "xColour", ArgForms("xc", "xColour", true)),
    ArgEntry("SHOpts", "yColour", ArgForms("yc", "yColour", true)),
    ArgEntry("SHOpts", "zColour", ArgForms("zc", "zColour", true))
  ]

  /** The entries whose flags go to the main parser. */
  const MAIN_SIDE: seq<ArgEntry> := MAIN_ARGS + SCENE_ARGS + ORTHO_ARGS + LIGHTBOX_ARGS

  /** The `DisplayOpts` entries, of every opts type. */
  const OPTS_SIDE: seq<ArgEntry> :=
    NIFTI_ARGS + COLOUR_MAP_ARGS + VOLUME_ARGS + MASK_ARGS + VECTOR_ARGS +
    LINE_VECTOR_ARGS + RGB_VECTOR_ARGS + TENSOR_ARGS + MESH_ARGS + LABEL_ARGS + SH_ARGS

  /** The entries whose flags go to the overlay parsers. */
  const OVERLAY_SIDE: seq<ArgEntry> := DISPLAY_ARGS + OPTS_SIDE

  const ARGUMENTS: seq<ArgEntry> := MAIN_SIDE + OVERLAY_SIDE

  // ---------------------------------------------------------------------------------
  // The collision rules of `ARGUMENTS`
  // ---------------------------------------------------------------------------------

  /** Two entries share their short or their long form. */
  predicate Clash(a: ArgEntry, b: ArgEntry)
  {
    a.forms.short == b.forms.short || a.forms.long == b.forms.long
  }

  /** No two entries of `es` share a form. */
  predicate NoClashes(es: seq<ArgEntry>)
  {
    forall i, j :: 0 <= i < j < |es| ==> !Clash(es[i], es[j])
  }

  /** Where a short form stands in `MAIN_SIDE`, read off as few of its characters as
      tell the main side's short forms apart: first its length, then characters. */
  function MainShortIdx(s: string): int
  {
    if |s| == 1 then if s[0] == 'h' then 0 else if s[0] == 'v' then 2 else if s[0] == 'V' then 3 else if s[0] == 'S' then 4 else if s[0] == 'n' then 5 else if s[0] == 'm' then 6 else if s[0] == 's' then 8 else if s[0] == 'b' then 16 else 24
    else if |s| == 2 then if s[0] == 'f' then 1 else if s[0] == 'g' then 7 else if s[0] == 'v' then 9 else if s[0] == 'w' then 10 else if s[0] == 'a' then 11 else if s[0] == 'd' then 12 else if s[0] == 'n' then if s[1] == 'o' then 13 else if s[1] == 'c' then 38 else 39 else if s[0] == 'c' then if s[1] == 'b' then 18 else 20 else if s[0] == 'b' then 19 else if s[0] == 'h' then if s[1] == 'c' then 23 else if s[1] == 'l' then 32 else 42 else if s[0] == 'x' then if s[1] == 'z' then 25 else if s[1] == 'h' then 29 else 34 else if s[0] == 'y' then if s[1] == 'z' then 26 else if s[1] == 'h' then 30 else 35 else if s[0] == 'z' then if s[1] == 'z' then 27 else if s[1] == 'h' then 31 else if s[1] == 'c' then 36 else if s[1] == 'r' then 40 else 43 else if s[0] == 'l' then if s[1] == 'o' then 28 else 33 else if s[1] == 's' then 37 else 41
    else if |s| == 3 then if s[0] == 's' then 14 else if s[2] == 'l' then 21 else 22
    else if |s| == 4 then 17
    else if |s| == 6 then 15
    else -1
  }

  /** Where a long form stands in `MAIN_SIDE`, in the same way. */
  function MainLongIdx(s: string): int
  {
    if |s| == 4 then 0
    else if |s| == 5 then if s[0] == 'n' then if s[1] == 'o' then 5 else if s[1] == 'c' then 38 else 39 else if s[0] == 's' then 8 else if s[0] == 'x' then 25 else if s[0] == 'y' then 26 else if s[0] == 'z' then if s[1] == 'z' then 27 else 43 else if s[4] == 'x' then 29 else if s[4] == 'y' then 30 else 31
    else if |s| == 6 then if s[0] == 'm' then 6 else if s[0] == 'b' then 16 else if s[0] == 'l' then 28 else 40
    else if |s| == 7 then if s[0] == 'v' then if s[3] == 'b' then 2 else 3 else if s[0] == 'b' then 17 else if s[0] == 'x' then 34 else if s[0] == 'y' then 35 else 36
    else if |s| == 8 then if s[0] == 'f' then 1 else if s[0] == 'v' then 9 else if s[0] == 'w' then 10 else if s[0] == 's' then 14 else 19
    else if |s| == 9 then if s[0] == 'g' then 7 else 33
    else if |s| == 10 then if s[4] == 'C' then 23 else 32
    else if |s| == 11 then if s[0] == 'a' then 11 else if s[0] == 's' then 15 else 24
    else if |s| == 12 then if s[0] == 's' then if s[1] == 'k' then 4 else 37 else if s[0] == 'd' then 12 else 20
    else if |s| == 13 then if s[4] == 'C' then 18 else 41
    else if |s| == 14 then 42
    else if |s| == 16 then 13
    else if |s| == 17 then 21
    else if |s| == 18 then 22
    else -1
  }

  /** Entry `i` of `es` sits at `off + i` of the main side as both lookups read it. */
  predicate MainIndexed(es: seq<ArgEntry>, off: nat)
  {
    ShortsIndexed(es, off) && LongsIndexed(es, off)
  }

  predicate ShortsIndexed(es: seq<ArgEntry>, off: nat)
  {
    forall i :: 0 <= i < |es| ==> MainShortIdx(es[i].forms.short) == off + i
  }

  predicate LongsIndexed(es: seq<ArgEntry>, off: nat)
  {
    forall i :: 0 <= i < |es| ==> MainLongIdx(es[i].forms.long) == off + i
  }

  lemma MainArgsShorts()
    ensures ShortsIndexed(MAIN_ARGS, 0)
  {
  }

  lemma MainArgsLongs()
    ensures LongsIndexed(MAIN_ARGS, 0)
  {
  }

  lemma SceneArgsShorts()
    ensures ShortsIndexed(SCENE_ARGS, 18)
  {
  }

  lemma SceneArgsLongs()
    ensures LongsIndexed(SCENE_ARGS, 18)
  {
  }

  lemma OrthoArgsShortsFirst()
    ensures forall i :: 0 <= i < 6 ==> MainShortIdx(ORTHO_ARGS[i].forms.short) == 25 + i
  {
  }

  lemma OrthoArgsShortsRest()
    ensures forall i :: 6 <= i < 12 ==> MainShortIdx(ORTHO_ARGS[i].forms.short) == 25 + i
  {
  }

  lemma OrthoArgsShorts()
    ensures ShortsIndexed(ORTHO_ARGS, 25)
  {
    OrthoArgsShortsFirst();
    OrthoArgsShortsRest();
  }

  lemma OrthoArgsLongs()
    ensures LongsIndexed(ORTHO_ARGS, 25)
  {
  }

  lemma LightBoxArgsShorts()
    ensures ShortsIndexed(LIGHTBOX_ARGS, 37)
  {
  }

  lemma LightBoxArgsLongs()
    ensures LongsIndexed(LIGHTBOX_ARGS, 37)
  {
  }

  lemma {:induction false} IndexedConcat(a: seq<ArgEntry>, b: seq<ArgEntry>, off: nat)
    requires MainIndexed(a, off) && MainIndexed(b, off + |a|)
    ensures MainIndexed(a + b, off)
  {
    forall i | 0 <= i < |a + b|
      ensures MainShortIdx((a + b)[i].forms.short) == off + i && MainLongIdx((a + b)[i].forms.long) == off + i
    {
      if i >= |a| {
        assert (a + b)[i] == b[i - |a|];
      }
    }
  }

  /** No flag collides on the main side: the main options and those of `SceneOpts`,
      `OrthoOpts` and `LightBoxOpts` share no short and no long form. */
  lemma MainSideUnique()
    ensures NoClashes(MAIN_SIDE)
  {
    MainArgsShorts();
    MainArgsLongs();
    SceneArgsShorts();
    SceneArgsLongs();
    OrthoArgsShorts();
    OrthoArgsLongs();
    LightBoxArgsShorts();
    LightBoxArgsLongs();
    IndexedConcat(MAIN_ARGS, SCENE_ARGS, 0);
    IndexedConcat(MAIN_ARGS + SCENE_ARGS, ORTHO_ARGS, 0);
    IndexedConcat(MAIN_ARGS + SCENE_ARGS + ORTHO_ARGS, LIGHTBOX_ARGS, 0);
    assert MainIndexed(MAIN_SIDE, 0);
  }

  /** Where a short form stands among the `Display` entries, or -1. */
  function DisplayShortIdx(s: string): int
  {
    if |s| == 1 then
      if s[0] == 'n' then 0 else if s[0] == 'd' then 1 else if s[0] == 'a' then 3
      else if s[0] == 'b' then 4 else if s[0] == 'c' then 5 else -1
    else if |s| == 2 && s[0] == 'o' && s[1] == 't' then 2
    else -1
  }

  /** Where a long form stands among the `Display` entries, or -1. */
  function DisplayLongIdx(s: string): int
  {
    if |s| == 4 && s == "name" then 0
    else if |s| == 8 && s == "disabled" then 1
    else if |s| == 11 && s == "overlayType" then 2
    else if |s| == 5 && s == "alpha" then 3
    else if |s| == 10 && s == "brightness" then 4
    else if |s| == 8 && s == "contrast" then 5
    else -1
  }

  /** No entry of `es` has a `Display` form. */
  predicate OutsideDisplay(es: seq<ArgEntry>)
  {
    forall j :: 0 <= j < |es| ==> DisplayShortIdx(es[j].forms.short) == -1 && DisplayLongIdx(es[j].forms.long) == -1
  }

  lemma DisplayArgsIndexed()
    ensures forall i :: 0 <= i < |DISPLAY_ARGS| ==>
              DisplayShortIdx(DISPLAY_ARGS[i].forms.short) == i && DisplayLongIdx(DISPLAY_ARGS[i].forms.long) == i
  {
  }

  lemma NiftiArgsOutsideDisplay()
    ensures OutsideDisplay(NIFTI_ARGS)
  {
  }

  lemma ColourMapArgsOutsideDisplay()
    ensures OutsideDisplay(COLOUR_MAP_ARGS)
  {
  }

  lemma VolumeArgsOutsideDisplay()
    ensures OutsideDisplay(VOLUME_ARGS)
  {
  }

  lemma MaskArgsOutsideDisplay()
    ensures OutsideDisplay(MASK_ARGS)
  {
  }

  lemma VectorArgsOutsideDisplay()
    ensures OutsideDisplay(VECTOR_ARGS)
  {
  }

  lemma LineVectorArgsOutsideDisplay()
    ensures OutsideDisplay(LINE_VECTOR_ARGS)
  {
  }

  lemma RgbVectorArgsOutsideDisplay()
    ensures OutsideDisplay(RGB_VECTOR_ARGS)
  {
  }

  lemma TensorArgsOutsideDisplay()
    ensures OutsideDisplay(TENSOR_ARGS)
  {
  }

  lemma MeshArgsOutsideDisplay()
    ensures OutsideDisplay(MESH_ARGS)
  {
  }

  lemma LabelArgsOutsideDisplay()
    ensures OutsideDisplay(LABEL_ARGS)
  {
  }

  lemma ShArgsOutsideDisplay()
    ensures OutsideDisplay(SH_ARGS)
  {
  }

  lemma {:induction false} OutsideConcat(a: seq<ArgEntry>, b: seq<ArgEntry>)
    requires OutsideDisplay(a) && OutsideDisplay(b)
    ensures OutsideDisplay(a + b)
  {
    forall j | 0 <= j < |a + b|
      ensures DisplayShortIdx((a + b)[j].forms.short) == -1 && DisplayLongIdx((a + b)[j].forms.long) == -1
    {
      if j >= |a| {
        assert (a + b)[j] == b[j - |a|];
      }
    }
  }

  /** Nor do the `Display` entries collide among themselves. */
  lemma DisplayUnique()
    ensures NoClashes(DISPLAY_ARGS)
  {
    DisplayArgsIndexed();
  }

  /** No `DisplayOpts` entry, of whichever opts type, collides with a `Display` entry. */
  lemma DisplayApart()
    ensures forall i, j :: 0 <= i < |DISPLAY_ARGS| && 0 <= j < |OPTS_SIDE| ==> !Clash(DISPLAY_ARGS[i], OPTS_SIDE[j])
  {
    NiftiArgsOutsideDisplay();
    ColourMapArgsOutsideDisplay();
    VolumeArgsOutsideDisplay();
    MaskArgsOutsideDisplay();
    VectorArgsOutsideDisplay();
    LineVectorArgsOutsideDisplay();
    RgbVectorArgsOutsideDisplay();
    TensorArgsOutsideDisplay();
    MeshArgsOutsideDisplay();
    LabelArgsOutsideDisplay();
    ShArgsOutsideDisplay();
    OutsideConcat(NIFTI_ARGS, COLOUR_MAP_ARGS);
    OutsideConcat(NIFTI_ARGS + COLOUR_MAP_ARGS, VOLUME_ARGS);
    OutsideConcat(NIFTI_ARGS + COLOUR_MAP_ARGS + VOLUME_ARGS, MASK_ARGS);
    OutsideConcat(NIFTI_ARGS + COLOUR_MAP_ARGS + VOLUME_ARGS + MASK_ARGS, VECTOR_ARGS);
    OutsideConcat(NIFTI_ARGS + COLOUR_MAP_ARGS + VOLUME_ARGS + MASK_ARGS + VECTOR_ARGS, LINE_VECTOR_ARGS);
    OutsideConcat(NIFTI_ARGS + COLOUR_MAP_ARGS + VOLUME_ARGS + MASK_ARGS + VECTOR_ARGS + LINE_VECTOR_ARGS, RGB_VECTOR_ARGS);
    OutsideConcat(NIFTI_ARGS + COLOUR_MAP_ARGS + VOLUME_ARGS + MASK_ARGS + VECTOR_ARGS + LINE_VECTOR_ARGS + RGB_VECTOR_ARGS, TENSOR_ARGS);
    OutsideConcat(NIFTI_ARGS + COLOUR_MAP_ARGS + VOLUME_ARGS + MASK_ARGS + VECTOR_ARGS + LINE_VECTOR_ARGS + RGB_VECTOR_ARGS + TENSOR_ARGS, MESH_ARGS);
    OutsideConcat(NIFTI_ARGS + COLOUR_MAP_ARGS + VOLUME_ARGS + MASK_ARGS + VECTOR_ARGS + LINE_VECTOR_ARGS + RGB_VECTOR_ARGS + TENSOR_ARGS + MESH_ARGS, LABEL_ARGS);
    OutsideConcat(NIFTI_ARGS + COLOUR_MAP_ARGS + VOLUME_ARGS + MASK_ARGS + VECTOR_ARGS + LINE_VECTOR_ARGS + RGB_VECTOR_ARGS + TENSOR_ARGS + MESH_ARGS + LABEL_ARGS, SH_ARGS);
    assert OutsideDisplay(OPTS_SIDE);
    DisplayArgsIndexed();
    forall i, j | 0 <= i < |DISPLAY_ARGS| && 0 <= j < |OPTS_SIDE|
      ensures !Clash(DISPLAY_ARGS[i], OPTS_SIDE[j])
    {
      assert DisplayShortIdx(OPTS_SIDE[j].forms.short) == -1 && DisplayLongIdx(OPTS_SIDE[j].forms.long) == -1;
    }
  }

  /** Across the two sides flags may repeat: `-n` is both `noisy` and a `Display` name. */
  lemma SidesMayCollide()
    ensures exists i, j :: 0 <= i < |MAIN_SIDE| && 0 <= j < |OVERLAY_SIDE| && Clash(MAIN_SIDE[i], OVERLAY_SIDE[j])
  {
    assert MAIN_SIDE[5] == MAIN_ARGS[5];
    assert OVERLAY_SIDE[0] == DISPLAY_ARGS[0];
    assert Clash(MAIN_SIDE[5], OVERLAY_SIDE[0]);
  }

  /** The flags of `table` (main or overlay side) whose option takes a value. */
  predicate ExpectingFlag(e: ArgEntry, main: bool, f: string)
  {
    e.forms.expects && (e.group in MAIN_GROUPS) == main && (f == e.forms.short || f == e.forms.long)
  }

  function ExpectFlags(table: seq<ArgEntry>, main: bool): set<string>
  {
    if |table| == 0 then {}
    else
      var e := table[|table| - 1];
      ExpectFlags(table[..|table| - 1], main) +
      (if e.forms.expects && (e.group in MAIN_GROUPS) == main then {e.forms.short, e.forms.long} else {})
  }

  lemma {:induction false} ExpectFlagsMembers(table: seq<ArgEntry>, main: bool, f: string)
    ensures f in ExpectFlags(table, main) <==> exists i :: 0 <= i < |table| && ExpectingFlag(table[i], main, f)
  {
    if |table| > 0 {
      var init := table[..|table| - 1];
      ExpectFlagsMembers(init, main, f);
      if exists i :: 0 <= i < |table| && ExpectingFlag(table[i], main, f) {
        var i :| 0 <= i < |table| && ExpectingFlag(table[i], main, f);
        if i < |init| {
          assert init[i] == table[i];
        }
      }
      if exists i :: 0 <= i < |init| && ExpectingFlag(init[i], main, f) {
        var i :| 0 <= i < |init| && ExpectingFlag(init[i], main, f);
        assert table[i] == init[i];
      }
    }
  }

  /** Every entry of `es` belongs to the main side (`main`) or to the overlay side. */
  predicate OnSide(es: seq<ArgEntry>, main: bool)
  {
    forall i :: 0 <= i < |es| ==> (es[i].group in MAIN_GROUPS) == main
  }

  lemma MainArgsSide()
    ensures OnSide(MAIN_ARGS, true)
  {
  }

  lemma SceneArgsSide()
    ensures OnSide(SCENE_ARGS, true)
  {
  }

  lemma OrthoArgsSide()
    ensures OnSide(ORTHO_ARGS, true)
  {
  }

  lemma LightboxArgsSide()
    ensures OnSide(LIGHTBOX_ARGS, true)
  {
  }

  lemma DisplayArgsSide()
    ensures OnSide(DISPLAY_ARGS, false)
  {
  }

  lemma NiftiArgsSide()
    ensures OnSide(NIFTI_ARGS, false)
  {
  }

  lemma ColourMapArgsSide()
    ensures OnSide(COLOUR_MAP_ARGS, false)
  {
  }

  lemma VolumeArgsSide()
    ensures OnSide(VOLUME_ARGS, false)
  {
  }

  lemma MaskArgsSide()
    ensures OnSide(MASK_ARGS, false)
  {
  }

  lemma VectorArgsSide()
    ensures OnSide(VECTOR_ARGS, false)
  {
  }

  lemma LineVectorArgsSide()
    ensures OnSide(LINE_VECTOR_ARGS, false)
  {
  }

  lemma RgbVectorArgsSide()
    ensures OnSide(RGB_VECTOR_ARGS, false)
  {
  }

  lemma TensorArgsSide()
    ensures OnSide(TENSOR_ARGS, false)
  {
  }

  lemma MeshArgsSide()
    ensures OnSide(MESH_ARGS, false)
  {
  }

  lemma LabelArgsSide()
    ensures OnSide(LABEL_ARGS, false)
  {
  }

  lemma ShArgsSide()
    ensures OnSide(SH_ARGS, false)
  {
  }

  lemma {:induction false} OnSideConcat(a: seq<ArgEntry>, b: seq<ArgEntry>, main: bool)
    requires OnSide(a, main) && OnSide(b, main)
    ensures OnSide(a + b, main)
  {
    forall i | 0 <= i < |a + b| ensures ((a + b)[i].group in MAIN_GROUPS) == main {
      if i >= |a| {
        assert (a + b)[i] == b[i - |a|];
      }
    }
  }

  /** The two halves of `ARGUMENTS` are the main and the overlay side. */
  lemma ArgumentSides()
    ensures OnSide(MAIN_SIDE, true) && OnSide(OVERLAY_SIDE, false)
  {
    MainArgsSide();
    SceneArgsSide();
    OrthoArgsSide();
    LightboxArgsSide();
    DisplayArgsSide();
    NiftiArgsSide();
    ColourMapArgsSide();
    VolumeArgsSide();
    MaskArgsSide();
    VectorArgsSide();
    LineVectorArgsSide();
    RgbVectorArgsSide();
    TensorArgsSide();
    MeshArgsSide();
    LabelArgsSide();
    ShArgsSide();
    OnSideConcat(MAIN_ARGS, SCENE_ARGS, true);
    OnSideConcat(MAIN_ARGS + SCENE_ARGS, ORTHO_ARGS, true);
    OnSideConcat(MAIN_ARGS + SCENE_ARGS + ORTHO_ARGS, LIGHTBOX_ARGS, true);
    OnSideConcat(NIFTI_ARGS, COLOUR_MAP_ARGS, false);
    OnSideConcat(NIFTI_ARGS + COLOUR_MAP_ARGS, VOLUME_ARGS, false);
    OnSideConcat(NIFTI_ARGS + COLOUR_MAP_ARGS + VOLUME_ARGS, MASK_ARGS, false);
    OnSideConcat(NIFTI_ARGS + COLOUR_MAP_ARGS + VOLUME_ARGS + MASK_ARGS, VECTOR_ARGS, false);
    OnSideConcat(NIFTI_ARGS + COLOUR_MAP_ARGS + VOLUME_ARGS + MASK_ARGS + VECTOR_ARGS, LINE_VECTOR_ARGS, false);
    OnSideConcat(NIFTI_ARGS + COLOUR_MAP_ARGS + VOLUME_ARGS + MASK_ARGS + VECTOR_ARGS + LINE_VECTOR_ARGS, RGB_VECTOR_ARGS, false);
    OnSideConcat(NIFTI_ARGS + COLOUR_MAP_ARGS + VOLUME_ARGS + MASK_ARGS + VECTOR_ARGS + LINE_VECTOR_ARGS + RGB_VECTOR_ARGS, TENSOR_ARGS, false);
    OnSideConcat(NIFTI_ARGS + COLOUR_MAP_ARGS + VOLUME_ARGS + MASK_ARGS + VECTOR_ARGS + LINE_VECTOR_ARGS + RGB_VECTOR_ARGS + TENSOR_ARGS, MESH_ARGS, false);
    OnSideConcat(NIFTI_ARGS + COLOUR_MAP_ARGS + VOLUME_ARGS + MASK_ARGS + VECTOR_ARGS + LINE_VECTOR_ARGS + RGB_VECTOR_ARGS + TENSOR_ARGS + MESH_ARGS, LABEL_ARGS, false);
    OnSideConcat(NIFTI_ARGS + COLOUR_MAP_ARGS + VOLUME_ARGS + MASK_ARGS + VECTOR_ARGS + LINE_VECTOR_ARGS + RGB_VECTOR_ARGS + TENSOR_ARGS + MESH_ARGS + LABEL_ARGS, SH_ARGS, false);
    OnSideConcat(DISPLAY_ARGS, OPTS_SIDE, false);
  }

  lemma {:induction false} ExpectFlagsConcat(a: seq<ArgEntry>, b: seq<ArgEntry>, main: bool)
    ensures ExpectFlags(a + b, main) == ExpectFlags(a, main) + ExpectFlags(b, main)
    decreases |b|
  {
    if |b| > 0 {
      assert (a + b)[..|a + b| - 1] == a + b[..|b| - 1];
      ExpectFlagsConcat(a, b[..|b| - 1], main);
    } else {
      assert a + b == a;
    }
  }

  lemma {:induction false} ExpectFlagsOtherSide(es: seq<ArgEntry>, main: bool)
    requires OnSide(es, !main)
    ensures ExpectFlags(es, main) == {}
  {
    if |es| > 0 {
      ExpectFlagsOtherSide(es[..|es| - 1], main);
    }
  }

  /** The main parser expects values after exactly the main side's value-taking flags, the
      overlay parsers after exactly the overlay side's. */
  lemma ExpectFlagsBySide()
    ensures ExpectFlags(ARGUMENTS, true) == ExpectFlags(MAIN_SIDE, true)
    ensures ExpectFlags(ARGUMENTS, false) == ExpectFlags(OVERLAY_SIDE, false)
  {
    ArgumentSides();
    ExpectFlagsConcat(MAIN_SIDE, OVERLAY_SIDE, true);
    ExpectFlagsConcat(MAIN_SIDE, OVERLAY_SIDE, false);
    ExpectFlagsOtherSide(OVERLAY_SIDE, true);
    ExpectFlagsOtherSide(MAIN_SIDE, false);
  }

  /** The loop over `ARGUMENTS.items()` in `parseArgs`: the main set starts from the
      caller's `argOpts`; each entry that expects a value adds both its forms to the
      main set (main groups) or the overlay set (all others). */
  method BuildExpects(argOpts: seq<string>, table: seq<ArgEntry>) returns (mainExpects: set<string>, ovlExpects: set<string>)
    ensures mainExpects == (set a | a in argOpts) + ExpectFlags(table, true)
    ensures ovlExpects == ExpectFlags(table, false)
  {
    mainExpects := set a | a in argOpts;
    ovlExpects := {};
    ghost var base := mainExpects;
    var i := 0;
    while i < |table|
      invariant 0 <= i <= |table|
      invariant mainExpects == base + ExpectFlags(table[..i], true)
      invariant ovlExpects == ExpectFlags(table[..i], false)
    {
      assert table[..i + 1][..i] == table[..i];
      var e := table[i];
      if e.forms.expects {
        if e.group in MAIN_GROUPS {
          mainExpects := mainExpects + {e.forms.short, e.forms.long};
        } else {
          ovlExpects := ovlExpects + {e.forms.short, e.forms.long};
        }
      }
      i := i + 1;
    }
    assert table[..i] == table;
  }

  // ---------------------------------------------------------------------------------
  // The overlay scan of `parseArgs`
  // ---------------------------------------------------------------------------------

  /** What `guessDataSourceType` reports for an argument: the overlay type it recognises,
      if any, and the file name it would load. */
  datatype Guess = Guess(dtype: Option<string>, fname: string)

  /** `ovlIdxs` and `ovlTypes` as the scan builds them. */
  datatype Scanned = Scanned(idxs: seq<nat>, types: seq<string>)

  /** The value-taking flags while scanning: the main set until the first overlay has
      been found, the overlay set after it. */
  function ExpectsNow(st: Scanned, mainExpects: set<string>, ovlExpects: set<string>): set<string>
  {
    if |st.idxs| == 0 then mainExpects else ovlExpects
  }

  /** `argv[i]` directly follows a flag whose dash-stripped form takes a value. */
  predicate AfterValueFlag(argv: seq<string>, i: nat, expects: set<string>)
    requires i < |argv|
  {
    i > 0 && StripChar(argv[i - 1], '-') in expects
  }

  /** One iteration of the scan over `argv`. */
  function ScanStep(argv: seq<string>, i: nat, st: Scanned, mainExpects: set<string>, ovlExpects: set<string>,
                    guess: string -> Guess, isFile: string -> bool): Result<Scanned>
    requires i < |argv|
  {
    if AfterValueFlag(argv, i, ExpectsNow(st, mainExpects, ovlExpects)) then Ok(st)
    else
      var g := guess(argv[i]);
      if !isFile(g.fname) then Ok(st)
      else if g.dtype.None? then Err(RuntimeError)
      else Ok(Scanned(st.idxs + [i], st.types + [g.dtype.value]))
  }

  /** The scan over the first `k` arguments. */
  function Scan(argv: seq<string>, k: nat, mainExpects: set<string>, ovlExpects: set<string>,
                guess: string -> Guess, isFile: string -> bool): Result<Scanned>
    requires k <= |argv|
  {
    if k == 0 then Ok(Scanned([], []))
    else
      match Scan(argv, k - 1, mainExpects, ovlExpects, guess, isFile)
      case Err(e) => Err(e)
      case Ok(st) => ScanStep(argv, k - 1, st, mainExpects, ovlExpects, guess, isFile)
  }

  predicate Increasing(s: seq<nat>)
  {
    forall a, b :: 0 <= a < b < |s| ==> s[a] < s[b]
  }

  /** Which value-taking flags apply at position `i`: the main set up to and including
      the first overlay, the overlay set after it. */
  function ExpectsBefore(idxs: seq<nat>, i: nat, mainExpects: set<string>, ovlExpects: set<string>): set<string>
  {
    if |idxs| > 0 && idxs[0] < i then ovlExpects else mainExpects
  }

  /** Position `i` names an overlay: it is not the value of a flag and names a file. */
  predicate Accepted(argv: seq<string>, i: nat, expects: set<string>, guess: string -> Guess, isFile: string -> bool)
    requires i < |argv|
  {
    !AfterValueFlag(argv, i, expects) && isFile(guess(argv[i]).fname)
  }

  /** The scan's indices are increasing positions read so far, one type per index, each
      the type guessed for that argument. */
  lemma {:induction false} ScanShape(argv: seq<string>, k: nat, mainExpects: set<string>, ovlExpects: set<string>,
                                      guess: string -> Guess, isFile: string -> bool)
    requires k <= |argv|
    requires Scan(argv, k, mainExpects, ovlExpects, guess, isFile).Ok?
    ensures var st := Scan(argv, k, mainExpects, ovlExpects, guess, isFile).value;
            |st.idxs| == |st.types| && Increasing(st.idxs) &&
            (forall m :: 0 <= m < |st.idxs| ==> st.idxs[m] < k) &&
            (forall m :: 0 <= m < |st.idxs| ==> guess(argv[st.idxs[m]]).dtype == Some(st.types[m]))
  {
    if k > 0 {
      ScanShape(argv, k - 1, mainExpects, ovlExpects, guess, isFile);
    }
  }

  /** Exactly the accepted positions are overlays, where acceptance uses the main flags
      up to the first overlay and the overlay flags after it. */
  lemma {:induction false} ScanExact(argv: seq<string>, k: nat, mainExpects: set<string>, ovlExpects: set<string>,
                                      guess: string -> Guess, isFile: string -> bool)
    requires k <= |argv|
    requires Scan(argv, k, mainExpects, ovlExpects, guess, isFile).Ok?
    ensures var st := Scan(argv, k, mainExpects, ovlExpects, guess, isFile).value;
            forall i :: 0 <= i < k ==>
              (i in st.idxs <==> Accepted(argv, i, ExpectsBefore(st.idxs, i, mainExpects, ovlExpects), guess, isFile))
  {
    if k > 0 {
      var prev := Scan(argv, k - 1, mainExpects, ovlExpects, guess, isFile).value;
      var st := Scan(argv, k, mainExpects, ovlExpects, guess, isFile).value;
      ScanExact(argv, k - 1, mainExpects, ovlExpects, guess, isFile);
      ScanShape(argv, k - 1, mainExpects, ovlExpects, guess, isFile);
      assert ExpectsNow(prev, mainExpects, ovlExpects) == ExpectsBefore(prev.idxs, k - 1, mainExpects, ovlExpects);
      assert st.idxs == prev.idxs || st.idxs == prev.idxs + [k - 1];
      forall i | 0 <= i < k - 1
        ensures ExpectsBefore(st.idxs, i, mainExpects, ovlExpects) == ExpectsBefore(prev.idxs, i, mainExpects, ovlExpects)
        ensures i in st.idxs <==> i in prev.idxs
      {
      }
      assert (k - 1 in st.idxs) <==> st.idxs != prev.idxs;
      assert ExpectsBefore(st.idxs, k - 1, mainExpects, ovlExpects) == ExpectsBefore(prev.idxs, k - 1, mainExpects, ovlExpects);
    }
  }

  /** The scan only fails with `RuntimeError`, for an unrecognised file. */
  lemma {:induction false} ScanError(argv: seq<string>, k: nat, mainExpects: set<string>, ovlExpects: set<string>,
                                      guess: string -> Guess, isFile: string -> bool)
    requires k <= |argv|
    ensures Scan(argv, k, mainExpects, ovlExpects, guess, isFile).Err? ==>
            Scan(argv, k, mainExpects, ovlExpects, guess, isFile).error == RuntimeError
  {
    if k > 0 {
      ScanError(argv, k - 1, mainExpects, ovlExpects, guess, isFile);
    }
  }

  /** The first overlay is checked against the main flags, every later one against the
      overlay flags. */
  lemma OverlayNotFlagValue(argv: seq<string>, mainExpects: set<string>, ovlExpects: set<string>,
                            guess: string -> Guess, isFile: string -> bool, m: nat)
    requires Scan(argv, |argv|, mainExpects, ovlExpects, guess, isFile).Ok?
    requires m < |Scan(argv, |argv|, mainExpects, ovlExpects, guess, isFile).value.idxs|
    ensures var idxs := Scan(argv, |argv|, mainExpects, ovlExpects, guess, isFile).value.idxs;
            idxs[m] < |argv| &&
            !AfterValueFlag(argv, idxs[m], if m == 0 then mainExpects else ovlExpects) &&
            isFile(guess(argv[idxs[m]]).fname)
  {
    var idxs := Scan(argv, |argv|, mainExpects, ovlExpects, guess, isFile).value.idxs;
    ScanShape(argv, |argv|, mainExpects, ovlExpects, guess, isFile);
    ScanExact(argv, |argv|, mainExpects, ovlExpects, guess, isFile);
    assert idxs[m] in idxs;
    assert (idxs[0] < idxs[m]) <==> m != 0;
  }

  /** `ovlIdxs.append(len(argv))` */
  function WithSentinel(r: Result<Scanned>, n: nat): Result<Scanned>
  {
    match r
    case Err(e) => Err(e)
    case Ok(st) => Ok(Scanned(st.idxs + [n], st.types))
  }

  /** The scan loop of `parseArgs`, with the sentinel appended. */
  method ScanOverlays(argv: seq<string>, mainExpects: set<string>, ovlExpects: set<string>,
                      guess: string -> Guess, isFile: string -> bool) returns (r: Result<Scanned>)
    ensures r == WithSentinel(Scan(argv, |argv|, mainExpects, ovlExpects, guess, isFile), |argv|)
    ensures r.Err? ==> r.error == RuntimeError
    ensures r.Ok? ==> |r.value.idxs| == |r.value.types| + 1 && Increasing(r.value.idxs) &&
                      r.value.idxs[|r.value.idxs| - 1] == |argv| &&
                      forall m :: 0 <= m < |r.value.idxs| ==> r.value.idxs[m] <= |argv|
  {
    var ovlIdxs: seq<nat> := [];
    var ovlTypes: seq<string> := [];
    var i := 0;
    while i < |argv|
      invariant 0 <= i <= |argv|
      invariant Scan(argv, i, mainExpects, ovlExpects, guess, isFile) == Ok(Scanned(ovlIdxs, ovlTypes))
    {
      var expectsArgs := if |ovlIdxs| == 0 then mainExpects else ovlExpects;
      if i > 0 && StripChar(argv[i - 1], '-') in expectsArgs {
        i := i + 1;
        continue;
      }
      var g := guess(argv[i]);
      if !isFile(g.fname) {
        i := i + 1;
        continue;
      }
      if g.dtype.None? {
        ScanError(argv, |argv|, mainExpects, ovlExpects, guess, isFile);
        StickyError(argv, i + 1, |argv|, mainExpects, ovlExpects, guess, isFile);
        return Err(RuntimeError);
      }
      ovlIdxs := ovlIdxs + [i];
      ovlTypes := ovlTypes + [g.dtype.value];
      i := i + 1;
    }
    ScanShape(argv, |argv|, mainExpects, ovlExpects, guess, isFile);
    ovlIdxs := ovlIdxs + [|argv|];
    r := Ok(Scanned(ovlIdxs, ovlTypes));
  }

  /** Once the scan has failed it stays failed. */
  lemma {:induction false} StickyError(argv: seq<string>, k: nat, n: nat, mainExpects: set<string>, ovlExpects: set<string>,
                                        guess: string -> Guess, isFile: string -> bool)
    requires k <= n <= |argv|
    requires Scan(argv, k, mainExpects, ovlExpects, guess, isFile).Err?
    ensures Scan(argv, n, mainExpects, ovlExpects, guess, isFile) == Scan(argv, k, mainExpects, ovlExpects, guess, isFile)
    decreases n - k
  {
    if k < n {
      StickyError(argv, k, n - 1, mainExpects, ovlExpects, guess, isFile);
    }
  }

  // ---------------------------------------------------------------------------------
  // Splitting `argv` at the overlay indices
  // ---------------------------------------------------------------------------------

  /** `argv[ovlIdxs[i]:ovlIdxs[i + 1]]` for every overlay `i`. */
  function Blocks(argv: seq<string>, bounds: seq<nat>): (bs: seq<seq<string>>)
    requires |bounds| >= 1 && Increasing(bounds) && bounds[|bounds| - 1] <= |argv|
    ensures |bs| == |bounds| - 1
  {
    assert forall j :: 0 <= j < |bounds| ==> bounds[j] <= bounds[|bounds| - 1];
    seq(|bounds| - 1, j requires 0 <= j < |bounds| - 1 => argv[bounds[j]..bounds[j + 1]])
  }

  function Flatten(bs: seq<seq<string>>): seq<string>
  {
    if |bs| == 0 then [] else bs[0] + Flatten(bs[1..])
  }

  lemma {:induction false} FlattenBlocks(argv: seq<string>, bounds: seq<nat>)
    requires |bounds| >= 1 && Increasing(bounds) && bounds[|bounds| - 1] == |argv|
    ensures Flatten(Blocks(argv, bounds)) == argv[bounds[0]..]
    decreases |bounds|
  {
    if |bounds| > 1 {
      var rest := bounds[1..];
      assert Increasing(rest);
      FlattenBlocks(argv, rest);
      assert Blocks(argv, bounds)[1..] == Blocks(argv, rest);
      assert argv[bounds[0]..] == argv[bounds[0]..bounds[1]] + argv[bounds[1]..];
    }
  }

  /** The main arguments and the overlay blocks partition `argv`, and every block starts
      with its overlay file. */
  lemma Partition(argv: seq<string>, bounds: seq<nat>)
    requires |bounds| >= 1 && Increasing(bounds) && bounds[|bounds| - 1] == |argv|
    ensures argv[..bounds[0]] + Flatten(Blocks(argv, bounds)) == argv
    ensures forall j :: 0 <= j < |bounds| - 1 ==>
              |Blocks(argv, bounds)[j]| >= 1 && Blocks(argv, bounds)[j][0] == argv[bounds[j]]
  {
    FlattenBlocks(argv, bounds);
    assert argv[..bounds[0]] + argv[bounds[0]..] == argv;
  }

  // ---------------------------------------------------------------------------------
  // Value transforms
  // ---------------------------------------------------------------------------------

  /** What `_imageTrans` receives: None, a text, or an overlay (with its data source and
      what `str` gives for it). */
  datatype TransArg = NoArg | Text(text: string) | Overlay(dataSource: string, repr: string)

  /** `str(i)` */
  function StrOf(i: TransArg): string
  {
    match i
    case NoArg => "None"
    case Text(t) => t
    case Overlay(_, r) => r
  }

  /** `_imageTrans(i)`: None and `'none'` in any case give None, `'world'` in any case
      gives `'world'`, an overlay gives its data source; a text has no `dataSource`,
      which raises `AttributeError`. */
  function ImageTrans(i: TransArg): Result<Option<string>>
  {
    var stri := Lower(StrOf(i));
    if i.NoArg? then Ok(None)
    else if stri == "none" then Ok(None)
    else if stri == "world" then Ok(Some("world"))
    else if i.Overlay? then Ok(Some(i.dataSource))
    else Err(AttributeError)
  }

  lemma ImageTransCases(i: TransArg)
    ensures ImageTrans(i) == Ok(None) <==> i.NoArg? || Lower(StrOf(i)) == "none"
    ensures i.Text? && Lower(i.text) == "world" ==> ImageTrans(i) == Ok(Some("world"))
    ensures i.Overlay? && Lower(i.repr) != "none" && Lower(i.repr) != "world" ==>
              ImageTrans(i) == Ok(Some(i.dataSource))
    ensures ImageTrans(i).Err? <==> i.Text? && Lower(i.text) != "none" && Lower(i.text) != "world"
  {
    if i.Overlay? && Lower(i.repr) != "none" && Lower(i.repr) != "world" {
      assert Some(i.dataSource) != None;
    }
  }

  /** Upper-case spellings are accepted too. */
  lemma ImageTransIgnoresCase()
    ensures ImageTrans(Text("NONE")) == Ok(None)
    ensures ImageTrans(Text("World")) == Ok(Some("world"))
  {
    assert Lower("NONE") == "none";
    assert Lower("World") == "world";
  }

  /** The kinds of function `TRANSFORMS` holds. */
  datatype Transform = Negate | FirstThree | LutKey | ImageTransform

  /** `lambda b: not b` */
  function NegateValue(b: bool): bool
  {
    !b
  }

  /** `lambda c: c[:3]` */
  function FirstThreeOf(c: seq<real>): (r: seq<real>)
  {
    if |c| <= 3 then c else c[..3]
  }

  /** Negation undoes itself, so a flag given twice means the default; truncation keeps
      at most the first three components, as they were, and is idempotent. */
  lemma TransformLaws(b: bool, c: seq<real>)
    ensures NegateValue(NegateValue(b)) == b && NegateValue(b) != b
    ensures |FirstThreeOf(c)| == if |c| < 3 then |c| else 3
    ensures FirstThreeOf(c) <= c
    ensures FirstThreeOf(FirstThreeOf(c)) == FirstThreeOf(c)
  {
  }

  /** What `_lutTrans` receives: a lookup table (by its key) or anything else by name. */
  datatype LutArg = LookupTable(key: string) | LutName(name: string)

  /** `_lutTrans(l)` */
  function LutTrans(l: LutArg): (r: string)
    ensures l.LookupTable? ==> r == l.key
    ensures l.LutName? ==> r == l.name
  {
    match l
    case LookupTable(k) => k
    case LutName(n) => n
  }

  /** The literal part of `TRANSFORMS`. */
  const BASE_TRANSFORMS: map<string, Transform> := map[
    "SceneOpts.showCursor" := Negate,
    "OrthoOpts.showXCanvas" := Negate,
    "OrthoOpts.showYCanvas" := Negate,
    "OrthoOpts.showZCanvas" := Negate,
    "OrthoOpts.showLabels" := Negate,
    "Display.enabled" := Negate,
    "VolumeOpts.linkLowRanges" := Negate,
    "LineVectorOpts.unitLength" := Negate,
    "TensorOpts.lighting" := Negate,
    "LabelOpts.lut" := LutKey,
    "SceneOpts.bgColour" := FirstThree,
    "SceneOpts.cursorColour" := FirstThree,
    "MeshOpts.colour" := FirstThree,
    "MaskOpts.colour" := FirstThree,
    "VectorOpts.xColour" := FirstThree,
    "VectorOpts.yColour" := FirstThree,
    "VectorOpts.zColour" := FirstThree
  ]

  /** `FILE_OPTIONS`: the options that name a file or an overlay. */
  const FILE_OPTIONS: seq<(string, seq<string>)> := [
    ("Main", ["displaySpace"]),
    ("VolumeOpts", ["clipImage"]),
    ("VectorOpts", ["clipImage", "colourImage", "modulateImage"]),
    ("MeshOpts", ["refImage"])
  ]

  /** `'{}.{}'.format(target, fileOpt)` */
  function Key(target: string, prop: string): string
  {
    target + "." + prop
  }

  /** The keys of one target's file options. */
  function TargetKeys(target: string, opts: seq<string>): set<string>
  {
    if |opts| == 0 then {} else TargetKeys(target, opts[..|opts| - 1]) + {Key(target, opts[|opts| - 1])}
  }

  function FileKeys(fileOptions: seq<(string, seq<string>)>): set<string>
  {
    if |fileOptions| == 0 then {}
    else
      var last := fileOptions[|fileOptions| - 1];
      FileKeys(fileOptions[..|fileOptions| - 1]) + TargetKeys(last.0, last.1)
  }

  lemma {:induction false} TargetKeysMembers(target: string, opts: seq<string>, k: string)
    ensures k in TargetKeys(target, opts) <==> exists j :: 0 <= j < |opts| && k == Key(target, opts[j])
  {
    if |opts| > 0 {
      var init := opts[..|opts| - 1];
      TargetKeysMembers(target, init, k);
      if exists j :: 0 <= j < |opts| && k == Key(target, opts[j]) {
        var j :| 0 <= j < |opts| && k == Key(target, opts[j]);
        if j < |init| {
          assert init[j] == opts[j];
        }
      }
      if exists j :: 0 <= j < |init| && k == Key(target, init[j]) {
        var j :| 0 <= j < |init| && k == Key(target, init[j]);
        assert opts[j] == init[j];
      }
    }
  }

  /** `base` after `TRANSFORMS[key] = _imageTrans` for each of `target`'s options, in order. */
  function WithTargetTransforms(base: map<string, Transform>, target: string, opts: seq<string>): map<string, Transform>
  {
    if |opts| == 0 then base
    else WithTargetTransforms(base, target, opts[..|opts| - 1])[Key(target, opts[|opts| - 1]) := ImageTransform]
  }

  /** `base` after the whole loop over `fileOptions`. */
  function WithFileTransforms(base: map<string, Transform>, fileOptions: seq<(string, seq<string>)>): map<string, Transform>
  {
    if |fileOptions| == 0 then base
    else
      var last := fileOptions[|fileOptions| - 1];
      WithTargetTransforms(WithFileTransforms(base, fileOptions[..|fileOptions| - 1]), last.0, last.1)
  }

  lemma {:induction false} TargetTransformsContents(base: map<string, Transform>, target: string, opts: seq<string>)
    ensures WithTargetTransforms(base, target, opts).Keys == base.Keys + TargetKeys(target, opts)
    ensures forall k :: k in TargetKeys(target, opts) ==> WithTargetTransforms(base, target, opts)[k] == ImageTransform
    ensures forall k :: k in base && k !in TargetKeys(target, opts) ==> WithTargetTransforms(base, target, opts)[k] == base[k]
  {
    if |opts| > 0 {
      TargetTransformsContents(base, target, opts[..|opts| - 1]);
    }
  }

  /** The loop gives every file key `_imageTrans`, keeps every other entry and adds nothing else. */
  lemma {:induction false} FileTransformsContents(base: map<string, Transform>, fileOptions: seq<(string, seq<string>)>)
    ensures WithFileTransforms(base, fileOptions).Keys == base.Keys + FileKeys(fileOptions)
    ensures forall k :: k in FileKeys(fileOptions) ==> WithFileTransforms(base, fileOptions)[k] == ImageTransform
    ensures forall k :: k in base && k !in FileKeys(fileOptions) ==> WithFileTransforms(base, fileOptions)[k] == base[k]
  {
    if |fileOptions| > 0 {
      var init := fileOptions[..|fileOptions| - 1];
      var last := fileOptions[|fileOptions| - 1];
      FileTransformsContents(base, init);
      TargetTransformsContents(WithFileTransforms(base, init), last.0, last.1);
    }
  }

  /** The loop that gives every file option `_imageTrans`. */
  method AddFileTransforms(base: map<string, Transform>, fileOptions: seq<(string, seq<string>)>)
    returns (t: map<string, Transform>)
    ensures t == WithFileTransforms(base, fileOptions)
    ensures t.Keys == base.Keys + FileKeys(fileOptions)
    ensures forall k :: k in FileKeys(fileOptions) ==> t[k] == ImageTransform
    ensures forall k :: k in base && k !in FileKeys(fileOptions) ==> t[k] == base[k]
  {
    t := base;
    var i := 0;
    while i < |fileOptions|
      invariant 0 <= i <= |fileOptions|
      invariant t == WithFileTransforms(base, fileOptions[..i])
    {
      var (target, opts) := fileOptions[i];
      ghost var before := t;
      var j := 0;
      while j < |opts|
        invariant 0 <= j <= |opts|
        invariant t == WithTargetTransforms(before, target, opts[..j])
      {
        assert opts[..j + 1][..j] == opts[..j];
        t := t[Key(target, opts[j]) := ImageTransform];
        j := j + 1;
      }
      assert opts[..j] == opts;
      assert fileOptions[..i + 1][..i] == fileOptions[..i];
      i := i + 1;
    }
    assert fileOptions[..i] == fileOptions;
    FileTransformsContents(base, fileOptions);
  }

  /** Every file option of `FILE_OPTIONS` is a key of the finished table. */
  lemma FileKeysMembers(fileOptions: seq<(string, seq<string>)>, k: string)
    ensures k in FileKeys(fileOptions) <==>
            exists i, j :: 0 <= i < |fileOptions| && 0 <= j < |fileOptions[i].1| && k == Key(fileOptions[i].0, fileOptions[i].1[j])
    decreases |fileOptions|
  {
    if |fileOptions| > 0 {
      var init := fileOptions[..|fileOptions| - 1];
      var last := fileOptions[|fileOptions| - 1];
      FileKeysMembers(init, k);
      TargetKeysMembers(last.0, last.1, k);
      if exists i, j :: 0 <= i < |fileOptions| && 0 <= j < |fileOptions[i].1| && k == Key(fileOptions[i].0, fileOptions[i].1[j]) {
        var i, j :| 0 <= i < |fileOptions| && 0 <= j < |fileOptions[i].1| && k == Key(fileOptions[i].0, fileOptions[i].1[j]);
        if i < |init| {
          assert init[i] == fileOptions[i];
        }
      }
      if exists i, j :: 0 <= i < |init| && 0 <= j < |init[i].1| && k == Key(init[i].0, init[i].1[j]) {
        var i, j :| 0 <= i < |init| && 0 <= j < |init[i].1| && k == Key(init[i].0, init[i].1[j]);
        assert fileOptions[i] == init[i];
      }
    }
  }

  /** `TRANSFORMS`: the literal table, then `_imageTrans` for every file option. */
  const TRANSFORMS: map<string, Transform> := WithFileTransforms(BASE_TRANSFORMS, FILE_OPTIONS)

  /** The file keys of `FILE_OPTIONS`, written out. */
  lemma FileOptionKeys()
    ensures FileKeys(FILE_OPTIONS) ==
            {Key("Main", "displaySpace"), Key("VolumeOpts", "clipImage"), Key("VectorOpts", "clipImage"),
             Key("VectorOpts", "colourImage"), Key("VectorOpts", "modulateImage"), Key("MeshOpts", "refImage")}
  {
    var f := FILE_OPTIONS;
    var v := ["clipImage", "colourImage", "modulateImage"];
    assert TargetKeys("Main", ["displaySpace"]) == {Key("Main", "displaySpace")} by {
      assert ["displaySpace"][..0] == [];
    }
    assert TargetKeys("VolumeOpts", ["clipImage"]) == {Key("VolumeOpts", "clipImage")} by {
      assert ["clipImage"][..0] == [];
    }
    assert TargetKeys("MeshOpts", ["refImage"]) == {Key("MeshOpts", "refImage")} by {
      assert ["refImage"][..0] == [];
    }
    assert TargetKeys("VectorOpts", v) ==
           {Key("VectorOpts", "clipImage"), Key("VectorOpts", "colourImage"), Key("VectorOpts", "modulateImage")} by {
      assert v[..2][..1][..0] == [];
      assert v[..2][..1] == ["clipImage"];
      assert v[..2] == ["clipImage", "colourImage"];
    }
    assert f[..1][..0] == [];
    assert f[..2][..1] == f[..1] && f[..3][..2] == f[..2];
    assert FileKeys(f[..1]) == {Key("Main", "displaySpace")};
    assert FileKeys(f[..2]) == {Key("Main", "displaySpace"), Key("VolumeOpts", "clipImage")};
    assert FileKeys(f[..3]) == FileKeys(f[..2]) + TargetKeys("VectorOpts", v);
  }

  /** A key ends as its option does. */
  lemma KeyEnd(target: string, prop: string)
    requires |prop| > 0
    ensures |Key(target, prop)| > 0 && Key(target, prop)[|Key(target, prop)| - 1] == prop[|prop| - 1]
  {
  }

  /** Every file key ends in `e` (`...Image`, `displaySpace`). */
  lemma FileKeysEnd()
    ensures forall k :: k in FileKeys(FILE_OPTIONS) ==> |k| > 0 && k[|k| - 1] == 'e'
  {
    FileOptionKeys();
    KeyEnd("Main", "displaySpace");
    KeyEnd("VolumeOpts", "clipImage");
    KeyEnd("VectorOpts", "clipImage");
    KeyEnd("VectorOpts", "colourImage");
    KeyEnd("VectorOpts", "modulateImage");
    KeyEnd("MeshOpts", "refImage");
  }

  /** No literal key ends in `e`. */
  lemma BaseKeysEnd()
    ensures forall k :: k in BASE_TRANSFORMS ==> |k| > 0 && k[|k| - 1] != 'e'
  {
  }

  /** `TRANSFORMS` holds the literal keys and the file keys, and nothing else. */
  lemma TransformsKeys()
    ensures TRANSFORMS.Keys == BASE_TRANSFORMS.Keys + FileKeys(FILE_OPTIONS)
  {
    FileTransformsContents(BASE_TRANSFORMS, FILE_OPTIONS);
  }

  /** Every option `FILE_OPTIONS` names transforms through `_imageTrans`. */
  lemma TransformsFileEntries()
    ensures forall i, j :: 0 <= i < |FILE_OPTIONS| && 0 <= j < |FILE_OPTIONS[i].1| ==>
              Key(FILE_OPTIONS[i].0, FILE_OPTIONS[i].1[j]) in TRANSFORMS &&
              TRANSFORMS[Key(FILE_OPTIONS[i].0, FILE_OPTIONS[i].1[j])] == ImageTransform
  {
    FileTransformsContents(BASE_TRANSFORMS, FILE_OPTIONS);
    forall i, j | 0 <= i < |FILE_OPTIONS| && 0 <= j < |FILE_OPTIONS[i].1|
      ensures Key(FILE_OPTIONS[i].0, FILE_OPTIONS[i].1[j]) in FileKeys(FILE_OPTIONS)
    {
      FileKeysMembers(FILE_OPTIONS, Key(FILE_OPTIONS[i].0, FILE_OPTIONS[i].1[j]));
    }
  }

  /** The literal entries keep their transforms: no file option overrides one. */
  lemma TransformsBaseEntries()
    ensures forall k :: k in BASE_TRANSFORMS ==> k in TRANSFORMS && TRANSFORMS[k] == BASE_TRANSFORMS[k]
  {
    FileTransformsContents(BASE_TRANSFORMS, FILE_OPTIONS);
    FileKeysEnd();
    BaseKeysEnd();
  }

  // ---------------------------------------------------------------------------------
  // `_configParser`
  // ---------------------------------------------------------------------------------

  /** The arguments `_configParser` hands to `props.addParserArguments`. */
  datatype ParserConfig<X> = ParserConfig(
    cliProps: seq<string>,
    shortArgs: map<string, string>,
    longArgs: map<string, string>,
    helpTexts: map<string, string>,
    extra: map<string, X>)

  /** The help text of one property: `HELP`'s entry or `'no help'`, replaced by the
      `SHORT_HELP` entry when short help is asked for and there is one. */
  function HelpText(p: string, help: map<string, string>, shortHelpTexts: map<string, string>, shortHelp: bool): string
  {
    var helpText := if p in help then help[p] else "no help";
    if shortHelp && p in shortHelpTexts then shortHelpTexts[p] else helpText
  }

  lemma HelpTextCases(p: string, help: map<string, string>, shortHelpTexts: map<string, string>, shortHelp: bool)
    ensures p !in help && !(shortHelp && p in shortHelpTexts) ==> HelpText(p, help, shortHelpTexts, shortHelp) == "no help"
    ensures shortHelp && p in shortHelpTexts ==> HelpText(p, help, shortHelpTexts, shortHelp) == shortHelpTexts[p]
    ensures !shortHelp ==> HelpText(p, help, shortHelpTexts, shortHelp) == HelpText(p, help, map[], true)
  {
  }

  /** The properties configured: the given list, or the target's `OPTIONS` entry. */
  function CliProps(options: seq<string>, propNames: Option<seq<string>>): seq<string>
  {
    if propNames.None? then options else propNames.value
  }

  /** `_configParser(target, parser, propNames, shortHelp)`, with the target's `OPTIONS`
      entry, `ARGUMENTS` lookup, help tables and `getExtra` resolved for the target. A
      property without an `ARGUMENTS` entry raises `KeyError`. */
  method ConfigParser<X>(options: seq<string>, propNames: Option<seq<string>>, arguments: string -> Option<ArgForms>,
                         help: map<string, string>, shortHelpTexts: map<string, string>,
                         extraOf: string -> Option<X>, shortHelp: bool) returns (r: Result<ParserConfig<X>>)
    ensures var props := CliProps(options, propNames);
            (r.Err? <==> exists i :: 0 <= i < |props| && arguments(props[i]).None?) &&
            (r.Err? ==> r.error == KeyError) &&
            (r.Ok? ==>
               r.value.cliProps == props &&
               (forall p :: p in r.value.shortArgs <==> p in props) &&
               (forall p :: p in r.value.longArgs <==> p in props) &&
               (forall p :: p in r.value.helpTexts <==> p in props) &&
               (forall p :: p in r.value.extra <==> p in props && extraOf(p).Some?) &&
               (forall p :: p in props ==>
                  arguments(p).Some? &&
                  r.value.shortArgs[p] == arguments(p).value.short &&
                  r.value.longArgs[p] == arguments(p).value.long &&
                  r.value.helpTexts[p] == HelpText(p, help, shortHelpTexts, shortHelp)) &&
               (forall p :: p in r.value.extra ==> extraOf(p) == Some(r.value.extra[p])))
  {
    var props := CliProps(options, propNames);
    var shortArgs: map<string, string> := map[];
    var longArgs: map<string, string> := map[];
    var helpTexts: map<string, string> := map[];
    var extra: map<string, X> := map[];
    var i := 0;
    while i < |props|
      invariant 0 <= i <= |props|
      invariant forall j :: 0 <= j < i ==> arguments(props[j]).Some?
      invariant forall p :: p in shortArgs <==> p in props[..i]
      invariant forall p :: p in longArgs <==> p in props[..i]
      invariant forall p :: p in helpTexts <==> p in props[..i]
      invariant forall p :: p in extra <==> p in props[..i] && extraOf(p).Some?
      invariant forall p :: p in props[..i] ==>
                  arguments(p).Some? &&
                  shortArgs[p] == arguments(p).value.short && longArgs[p] == arguments(p).value.long &&
                  helpTexts[p] == HelpText(p, help, shortHelpTexts, shortHelp)
      invariant forall p :: p in extra ==> extraOf(p) == Some(extra[p])
    {
      var propName := props[i];
      var forms := arguments(propName);
      if forms.None? {
        return Err(KeyError);
      }
      var propExtra := extraOf(propName);
      var helpText := if propName in help then help[propName] else "no help";
      if shortHelp {
        helpText := if propName in shortHelpTexts then shortHelpTexts[propName] else helpText;
      }
      shortArgs := shortArgs[propName := forms.value.short];
      longArgs := longArgs[propName := forms.value.long];
      helpTexts := helpTexts[propName := helpText];
      if propExtra.Some? {
        extra := extra[propName := propExtra.value];
      }
      assert props[..i + 1] == props[..i] + [propName];
      i := i + 1;
    }
    assert props[..i] == props;
    r := Ok(ParserConfig(props, shortArgs, longArgs, helpTexts, extra));
  }

  // ---------------------------------------------------------------------------------
  // The property lists of `_setupOverlayParsers`
  // ---------------------------------------------------------------------------------

  /** The targets that get an overlay parser, in order. */
  const PARSER_TYPES: seq<string> := ["VolumeOpts", "MaskOpts", "LabelOpts", "MeshOpts", "GiftiOpts",
                                      "LineVectorOpts", "RGBVectorOpts", "TensorOpts", "SHOpts"]

  /** The targets whose inherited `volume` property is not offered on the command line. */
  predicate DropsVolume(target: string)
  {
    target in ["LineVectorOpts", "RGBVectorOpts", "TensorOpts", "SHOpts"]
  }

  /** Each type gets one parser, and the types that drop `volume` are among them. */
  lemma ParserTypesTable()
    ensures DistinctNames(PARSER_TYPES)
    ensures forall t :: DropsVolume(t) ==> t in PARSER_TYPES
  {
  }

  function ConcatNames(hits: seq<seq<string>>): seq<string>
  {
    if |hits| == 0 then [] else ConcatNames(hits[..|hits| - 1]) + hits[|hits| - 1]
  }

  /** `list.remove(x)`: the first occurrence goes. */
  function RemoveName(s: seq<string>, x: string): (r: seq<string>)
    requires x in s
    ensures multiset(r) == multiset(s) - multiset{x}
  {
    assert s == [s[0]] + s[1..];
    if s[0] == x then s[1..]
    else
      [s[0]] + RemoveName(s[1..], x)
  }

  /** The file-option loop: each file option present is moved to `specialOptions`. */
  function MoveFileOptions(props: seq<string>, fileOpts: seq<string>): (seq<string>, seq<string>)
  {
    if |fileOpts| == 0 then (props, [])
    else
      var (rest, special) := MoveFileOptions(props, fileOpts[..|fileOpts| - 1]);
      var f := fileOpts[|fileOpts| - 1];
      if f in rest then (RemoveName(rest, f), special + [f]) else (rest, special)
  }

  predicate DistinctNames(s: seq<string>)
  {
    forall a, b :: 0 <= a < b < |s| ==> s[a] != s[b]
  }

  lemma RemoveNameDistinct(s: seq<string>, x: string)
    requires x in s && DistinctNames(s)
    ensures DistinctNames(RemoveName(s, x)) && x !in RemoveName(s, x)
  {
    var r := RemoveName(s, x);
    assert multiset(s)[x] == 1 by {
      var i :| 0 <= i < |s| && s[i] == x;
      MultisetOne(s, i);
    }
    assert multiset(r)[x] == 0;
    forall a, b | 0 <= a < b < |r| ensures r[a] != r[b] {
      if r[a] == r[b] {
        NotDistinctCount(r, a, b);
        assert multiset(s)[r[a]] >= multiset(r)[r[a]];
        var i :| 0 <= i < |s| && s[i] == r[a] by { assert r[a] in multiset(s); }
        MultisetOne(s, i);
      }
    }
  }

  lemma {:induction false} MultisetOne(s: seq<string>, i: nat)
    requires DistinctNames(s) && i < |s|
    ensures multiset(s)[s[i]] == 1
  {
    assert s == s[..i] + [s[i]] + s[i + 1..];
    assert s[i] !in s[..i] by {
      forall j | 0 <= j < i ensures s[..i][j] != s[i] { }
    }
    var rest := s[i + 1..];
    assert s[i] !in rest by {
      forall j | 0 <= j < |rest| ensures rest[j] != s[i] { assert rest[j] == s[i + 1 + j]; }
    }
  }

  lemma NotDistinctCount(s: seq<string>, a: nat, b: nat)
    requires a < b < |s| && s[a] == s[b]
    ensures multiset(s)[s[a]] >= 2
  {
    assert s == s[..a] + [s[a]] + s[a + 1..b] + [s[b]] + s[b + 1..];
  }

  /** Nothing is lost or invented: the remaining and the moved names together are the
      original list; the moved ones are file options, in file-option order. */
  lemma {:induction false} MoveFileOptionsPermutes(props: seq<string>, fileOpts: seq<string>)
    ensures multiset(MoveFileOptions(props, fileOpts).0) + multiset(MoveFileOptions(props, fileOpts).1) == multiset(props)
    ensures forall f :: f in MoveFileOptions(props, fileOpts).1 ==> f in fileOpts && f in props
  {
    if |fileOpts| > 0 {
      var init := fileOpts[..|fileOpts| - 1];
      MoveFileOptionsPermutes(props, init);
      var (rest, special) := MoveFileOptions(props, init);
      var f := fileOpts[|fileOpts| - 1];
      if f in rest {
        assert multiset(rest)[f] > 0;
        assert f in multiset(props);
      }
    }
  }

  /** With no repeated property names, no file option is left among the parsed names. */
  lemma {:induction false} MoveFileOptionsRemoves(props: seq<string>, fileOpts: seq<string>)
    requires DistinctNames(props)
    ensures DistinctNames(MoveFileOptions(props, fileOpts).0)
    ensures forall f :: f in fileOpts ==> f !in MoveFileOptions(props, fileOpts).0
  {
    if |fileOpts| > 0 {
      var init := fileOpts[..|fileOpts| - 1];
      MoveFileOptionsRemoves(props, init);
      var (rest, special) := MoveFileOptions(props, init);
      var f := fileOpts[|fileOpts| - 1];
      if f in rest {
        RemoveNameDistinct(rest, f);
        forall g | g in init ensures g !in RemoveName(rest, f) {
          assert multiset(RemoveName(rest, f))[g] <= multiset(rest)[g];
        }
      }
    }
  }

  /** The property names of one overlay parser: the concatenated `OPTIONS` hits, less
      `volume` for the vector, tensor and SH types (`ValueError` when it is missing),
      less the file options, which come back as the special options. */
  function OverlayPropNames(hits: seq<seq<string>>, target: string, fileOpts: seq<string>): Result<(seq<string>, seq<string>)>
  {
    var names := ConcatNames(hits);
    if DropsVolume(target) && "volume" !in names then Err(ValueError)
    else
      var names := if DropsVolume(target) then RemoveName(names, "volume") else names;
      Ok(MoveFileOptions(names, fileOpts))
  }

  /** The same steps as the Python code takes them, list updates in a loop. */
  method SetupPropNames(hits: seq<seq<string>>, target: string, fileOpts: seq<string>)
    returns (r: Result<(seq<string>, seq<string>)>)
    ensures r == OverlayPropNames(hits, target, fileOpts)
  {
    var propNames: seq<string> := [];
    var i := 0;
    while i < |hits|
      invariant 0 <= i <= |hits|
      invariant propNames == ConcatNames(hits[..i])
    {
      assert hits[..i + 1][..i] == hits[..i];
      propNames := propNames + hits[i];
      i := i + 1;
    }
    assert hits[..i] == hits;
    if DropsVolume(target) {
      if "volume" !in propNames {
        return Err(ValueError);
      }
      propNames := RemoveName(propNames, "volume");
    }
    ghost var start := propNames;
    var specialOptions: seq<string> := [];
    var j := 0;
    while j < |fileOpts|
      invariant 0 <= j <= |fileOpts|
      invariant (propNames, specialOptions) == MoveFileOptions(start, fileOpts[..j])
    {
      assert fileOpts[..j + 1][..j] == fileOpts[..j];
      var propName := fileOpts[j];
      if propName in propNames {
        specialOptions := specialOptions + [propName];
        propNames := RemoveName(propNames, propName);
      }
      j := j + 1;
    }
    assert fileOpts[..j] == fileOpts;
    r := Ok((propNames, specialOptions));
  }

  /** The display parser's list: `OPTIONS[Display]` without `overlayType` unless the
      parsers are for help (`ValueError` when it is missing). */
  function DisplayPropNames(options: seq<string>, forHelp: bool): (r: Result<seq<string>>)
    ensures r.Ok? && !forHelp ==> multiset(r.value) == multiset(options) - multiset{"overlayType"}
    ensures r.Err? <==> !forHelp && "overlayType" !in options
  {
    if forHelp then Ok(options)
    else if "overlayType" in options then Ok(RemoveName(options, "overlayType"))
    else Err(ValueError)
  }
}
