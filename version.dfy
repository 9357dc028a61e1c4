/** FSLeyes version numbers: `major.minor.point[hotfix]` strings, their parse into a
    four-number tuple, and the lexicographic comparison of two version strings. */
module Version {
  import opened Wrappers
  import opened PyText

  /** `(major, minor, point, hotfix)`; `hotfix` is 0 for a plain release and the code
      point of the trailing letter for a hot-fix release. `int()` accepts a sign, so
      the three numbers may be negative. */
  datatype VersionTuple = VersionTuple(major: int, minor: int, point: int, hotfix: nat)

  /** The tuple as the sequence `zip` walks over. */
  function Components(v: VersionTuple): (r: seq<int>)
    ensures |r| == 4
  {
    [v.major, v.minor, v.point, v.hotfix]
  }

  /** The third component: all digits gives `(int(point), 0)`; otherwise the last
      character is the hot-fix letter and the rest must be an integer. */
  function ParsePoint(point: string): (r: Result<(int, nat)>)
    ensures r.Ok? && r.value.1 != 0 ==>
              !IsDigitString(point) && |point| > 0 && r.value.1 == point[|point| - 1] as nat
  {
    if IsDigitString(point) then
      match ParseInt(point)
      case Ok(p) => Ok((p, 0))
      case Err(e) => Err(e)
    else if |point| == 0 then Err(IndexError)
    else
      match ParseInt(point[..|point| - 1])
      case Ok(p) => Ok((p, point[|point| - 1] as nat))
      case Err(e) => Err(e)
  }

  /** `parseVersionString`: major and minor are converted first (`ValueError` when one
      is not an integer or there are fewer than two components), then the third
      component is read (`IndexError` when it is missing); any further components are
      never looked at. */
  function ParseVersionString(s: string): (r: Result<VersionTuple>)
    ensures r.Ok? ==> |Split(s, '.')| >= 3
    ensures r.Ok? ==> ParseInt(Split(s, '.')[0]) == Ok(r.value.major)
    ensures r.Ok? ==> ParseInt(Split(s, '.')[1]) == Ok(r.value.minor)
  {
    ParseComponents(Split(s, '.'))
  }

  /** The conversions applied to the period-separated components, in the order the
      code performs them. */
  function ParseComponents(c: seq<string>): (r: Result<VersionTuple>)
    requires |c| >= 1
  {
    match ParseInt(c[0])
    case Err(e) => Err(e)
    case Ok(major) =>
      if |c| < 2 then Err(ValueError)
      else
        match ParseInt(c[1])
        case Err(e) => Err(e)
        case Ok(minor) =>
          if |c| < 3 then Err(IndexError)
          else
            match ParsePoint(c[2])
            case Err(e) => Err(e)
            case Ok(ph) => Ok(VersionTuple(major, minor, ph.0, ph.1))
  }

  /** The `for p1, p2 in zip(v1, v2)` loop: the sign of the first differing pair, or 0
      when the shorter sequence runs out first. */
  function CompareSeq(a: seq<int>, b: seq<int>): (c: int)
    ensures c == -1 || c == 0 || c == 1
  {
    if |a| == 0 || |b| == 0 then 0
    else if a[0] > b[0] then 1
    else if a[0] < b[0] then -1
    else CompareSeq(a[1..], b[1..])
  }

  function Compare(v1: VersionTuple, v2: VersionTuple): int
  {
    CompareSeq(Components(v1), Components(v2))
  }

  /** `compareVersions`: parses `v1` and then `v2` (the first parse error escapes),
      then 1 when `v1` is newer, -1 when it is older and 0 when both are the same. */
  function CompareVersions(s1: string, s2: string): (r: Result<int>)
    ensures r.Ok? ==> ParseVersionString(s1).Ok? && ParseVersionString(s2).Ok?
    ensures r.Ok? ==> r.value == -1 || r.value == 0 || r.value == 1
  {
    match ParseVersionString(s1)
    case Err(e) => Err(e)
    case Ok(v1) =>
      match ParseVersionString(s2)
      case Err(e) => Err(e)
      case Ok(v2) => Ok(Compare(v1, v2))
  }

  /** Strict lexicographic order on `(major, minor, point, hotfix)`, written out. */
  predicate Older(a: VersionTuple, b: VersionTuple)
  {
    a.major < b.major ||
    (a.major == b.major && a.minor < b.minor) ||
    (a.major == b.major && a.minor == b.minor && a.point < b.point) ||
    (a.major == b.major && a.minor == b.minor && a.point == b.point && a.hotfix < b.hotfix)
  }

  /** The zip loop computes exactly the lexicographic order: 1 for newer, -1 for older,
      0 for equal. */
  lemma CompareIsLexicographic(a: VersionTuple, b: VersionTuple)
    ensures Compare(a, b) == 1 <==> Older(b, a)
    ensures Compare(a, b) == -1 <==> Older(a, b)
    ensures Compare(a, b) == 0 <==> a == b
  {
    var x3, y3 := [a.hotfix], [b.hotfix];
    assert x3[1..] == [] && y3[1..] == [];
    var x2, y2 := [a.point] + x3, [b.point] + y3;
    assert x2[1..] == x3 && y2[1..] == y3;
    var x1, y1 := [a.minor] + x2, [b.minor] + y2;
    assert x1[1..] == x2 && y1[1..] == y2;
    assert Components(a) == [a.major] + x1 && Components(b) == [b.major] + y1;
    assert Components(a)[1..] == x1 && Components(b)[1..] == y1;
    assert CompareSeq(x3, y3) == (if a.hotfix > b.hotfix then 1 else if a.hotfix < b.hotfix then -1 else 0);
    assert CompareSeq(x2, y2) == (if a.point > b.point then 1 else if a.point < b.point then -1 else CompareSeq(x3, y3));
    assert CompareSeq(x1, y1) == (if a.minor > b.minor then 1 else if a.minor < b.minor then -1 else CompareSeq(x2, y2));
    assert Compare(a, b) == (if a.major > b.major then 1 else if a.major < b.major then -1 else CompareSeq(x1, y1));
  }

  lemma CompareReflexive(v: VersionTuple)
    ensures Compare(v, v) == 0
  {
    CompareIsLexicographic(v, v);
  }

  lemma CompareAntisymmetric(a: VersionTuple, b: VersionTuple)
    ensures Compare(a, b) == -Compare(b, a)
  {
    CompareIsLexicographic(a, b);
    CompareIsLexicographic(b, a);
  }

  lemma CompareTransitive(a: VersionTuple, b: VersionTuple, c: VersionTuple)
    requires Compare(a, b) == 1 && Compare(b, c) == 1
    ensures Compare(a, c) == 1
  {
    CompareIsLexicographic(a, b);
    CompareIsLexicographic(b, c);
    CompareIsLexicographic(a, c);
  }

  /** `compareVersions(v, v) == 0` for every valid version string. */
  lemma CompareVersionsReflexive(s: string)
    requires ParseVersionString(s).Ok?
    ensures CompareVersions(s, s) == Ok(0)
  {
    CompareReflexive(ParseVersionString(s).value);
  }

  /** Swapping the arguments negates the answer; and 1 means the first is newer. */
  lemma CompareVersionsAntisymmetric(s1: string, s2: string)
    requires ParseVersionString(s1).Ok? && ParseVersionString(s2).Ok?
    ensures CompareVersions(s1, s2).value == -CompareVersions(s2, s1).value
    ensures CompareVersions(s1, s2) == Ok(1) <==>
              Older(ParseVersionString(s2).value, ParseVersionString(s1).value)
  {
    CompareAntisymmetric(ParseVersionString(s1).value, ParseVersionString(s2).value);
    CompareIsLexicographic(ParseVersionString(s1).value, ParseVersionString(s2).value);
  }

  /** Only the first three components are read: a version string made of at least
      three period-free components parses as its first three alone. */
  lemma ParseIgnoresExtra(parts: seq<string>)
    requires |parts| >= 3
    requires forall i :: 0 <= i < |parts| ==> !Contains(parts[i], '.')
    ensures ParseVersionString(Join(parts, '.')) == ParseVersionString(Join(parts[..3], '.'))
  {
    SplitJoin(parts, '.');
    SplitJoin(parts[..3], '.');
    ComponentsPrefix(parts, parts[..3]);
  }

  lemma ComponentsPrefix(c: seq<string>, d: seq<string>)
    requires |c| >= 3 && |d| >= 3
    requires c[0] == d[0] && c[1] == d[1] && c[2] == d[2]
    ensures ParseComponents(c) == ParseComponents(d)
  {
  }

  /** Fewer than three components is always an error. */
  lemma ParseNeedsThree(s: string)
    requires |Split(s, '.')| < 3
    ensures ParseVersionString(s).Err?
  {
  }

  /** A non-numeric major or minor component is a `ValueError`. */
  lemma ParseBadMajorMinor(s: string)
    requires ParseInt(Split(s, '.')[0]).Err? ||
             (|Split(s, '.')| >= 2 && ParseInt(Split(s, '.')[1]).Err?)
    ensures ParseVersionString(s) == Err(ValueError)
  {
  }

  /** An all-digit third component gives hot-fix 0 and its own value as point. */
  lemma ParseNumericPoint(s: string)
    requires |Split(s, '.')| >= 3
    requires ParseInt(Split(s, '.')[0]).Ok? && ParseInt(Split(s, '.')[1]).Ok?
    requires IsDigitString(Split(s, '.')[2])
    ensures ParseVersionString(s) ==
              Ok(VersionTuple(ParseInt(Split(s, '.')[0]).value, ParseInt(Split(s, '.')[1]).value,
                              DigitsValue(Split(s, '.')[2]), 0))
  {
    DigitStringParses(Split(s, '.')[2]);
  }

  /** A third component that does not pass `isdigit` gives its last character's code as
      hot-fix, and the integer before it as point. */
  lemma ParseHotfixPoint(s: string)
    requires |Split(s, '.')| >= 3
    requires ParseInt(Split(s, '.')[0]).Ok? && ParseInt(Split(s, '.')[1]).Ok?
    requires !IsDigitString(Split(s, '.')[2]) && |Split(s, '.')[2]| > 0
    requires ParseInt(Split(s, '.')[2][..|Split(s, '.')[2]| - 1]).Ok?
    ensures ParseVersionString(s).Ok?
    ensures ParseVersionString(s).value.point ==
              ParseInt(Split(s, '.')[2][..|Split(s, '.')[2]| - 1]).value
    ensures ParseVersionString(s).value.hotfix == Split(s, '.')[2][|Split(s, '.')[2]| - 1] as nat
  {
  }

  /** An empty third component fails at `point[-1]`. */
  lemma ParseEmptyPoint(s: string)
    requires |Split(s, '.')| >= 3
    requires ParseInt(Split(s, '.')[0]).Ok? && ParseInt(Split(s, '.')[1]).Ok?
    requires Split(s, '.')[2] == ""
    ensures ParseVersionString(s) == Err(IndexError)
  {
  }

  /** The `__version__` layout: three numbers separated by periods, the point release
      optionally followed by one hot-fix character. */
  function FormatVersion(major: nat, minor: nat, point: nat, hotfix: Option<char>): (s: string)
    ensures |s| >= 5
  {
    NatToString(major) + "." + NatToString(minor) + "." + NatToString(point) + HotfixText(hotfix)
  }

  lemma DigitsFree(s: string, c: char)
    requires forall i :: 0 <= i < |s| ==> IsDigit(s[i])
    requires !IsDigit(c)
    ensures !Contains(s, c)
  {
  }

  /** The hot-fix suffix of a formatted version. */
  function HotfixText(hotfix: Option<char>): string
  {
    if hotfix.Some? then [hotfix.value] else ""
  }

  /** A formatted version splits into its three formatted numbers. */
  lemma {:induction false} FormatSplits(major: nat, minor: nat, point: nat, hotfix: Option<char>)
    requires hotfix.Some? ==> !IsDigit(hotfix.value) && hotfix.value != '.'
    ensures Split(FormatVersion(major, minor, point, hotfix), '.') ==
              [NatToString(major), NatToString(minor), NatToString(point) + HotfixText(hotfix)]
  {
    var a, b, p, h := NatToString(major), NatToString(minor), NatToString(point), HotfixText(hotfix);
    var parts := [a, b, p + h];
    DigitsFree(a, '.');
    DigitsFree(b, '.');
    assert !Contains(p + h, '.') by {
      forall i | 0 <= i < |p + h| ensures (p + h)[i] != '.' {
        if i < |p| { assert (p + h)[i] == p[i]; }
      }
    }
    assert Join(parts, '.') == FormatVersion(major, minor, point, hotfix) by {
      assert Join(parts[2..], '.') == p + h;
      assert Join(parts[1..], '.') == b + "." + (p + h);
    }
    SplitJoin(parts, '.');
  }

  /** The point component of a formatted version reads back as its number and the
      hot-fix character's code. */
  lemma {:induction false} ParsePointFormat(point: nat, hotfix: Option<char>)
    requires hotfix.Some? ==> !IsDigit(hotfix.value)
    ensures ParsePoint(NatToString(point) + HotfixText(hotfix)) ==
              Ok((point, if hotfix.Some? then hotfix.value as nat else 0))
  {
    var p := NatToString(point);
    var q := p + HotfixText(hotfix);
    ParseNatToString(point);
    if hotfix.Some? {
      assert q[..|q| - 1] == p;
      assert !IsDigitString(q) by { assert !IsDigit(q[|q| - 1]); }
    } else {
      assert q == p;
      DigitStringParses(p);
      DigitsOfNat(point);
    }
  }

  /** Parsing a formatted version gives back its numbers, with the hot-fix character's
      code (or 0 when there is none); a hot-fix character must be neither a digit nor a
      period. */
  lemma ParseFormat(major: nat, minor: nat, point: nat, hotfix: Option<char>)
    requires hotfix.Some? ==> !IsDigit(hotfix.value) && hotfix.value != '.'
    ensures ParseVersionString(FormatVersion(major, minor, point, hotfix)) ==
              Ok(VersionTuple(major, minor, point, if hotfix.Some? then hotfix.value as nat else 0))
  {
    FormatSplits(major, minor, point, hotfix);
    ParseNatToString(major);
    ParseNatToString(minor);
    ParsePointFormat(point, hotfix);
  }

  /** `'0.9.13'` is `(0, 9, 13, 0)`. */
  lemma ParseExample()
    ensures ParseVersionString("0.9.13") == Ok(VersionTuple(0, 9, 13, 0))
  {
    assert FormatVersion(0, 9, 13, None) == "0.9.13";
    ParseFormat(0, 9, 13, None);
  }

  /** The hot-fix release `'0.9.13a'` is newer than `'0.9.13'`. */
  lemma HotfixIsNewer()
    ensures CompareVersions("0.9.13a", "0.9.13") == Ok(1)
  {
    assert FormatVersion(0, 9, 13, Some('a')) == "0.9.13a";
    ParseFormat(0, 9, 13, Some('a'));
    ParseExample();
    CompareIsLexicographic(VersionTuple(0, 9, 13, 'a' as nat), VersionTuple(0, 9, 13, 0));
  }
}
