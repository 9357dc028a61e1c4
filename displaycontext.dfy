/** The overlay-type registry of the display context: which display types each overlay
    class offers (`OVERLAY_TYPES`), the union of them all (`ALL_OVERLAY_TYPES`), the
    options class behind each display type (`DISPLAY_OPTS_MAP`), and the per-image
    selection performed by `getOverlayTypes`. */
module DisplayContext {
  import opened Wrappers

  /** The NIFTI intent code for an RGB vector image. */
  const NIFTI_INTENT_RGB_VECTOR: int := 2003

  /** The overlays the registry knows by class name. An `Image` carries the two facts the
      selection looks at: its shape and its NIFTI intent code. Any other class is named
      by `className`; the registry has entries only for the three names below. */
  datatype Overlay =
    | Image(shape: seq<int>, intent: int)
    | Model
    | DTIFitTensor
    | OtherOverlay(className: string)

  function ClassName(o: Overlay): string
  {
    match o
    case Image(_, _) => "Image"
    case Model => "Model"
    case DTIFitTensor => "DTIFitTensor"
    case OtherOverlay(n) => n
  }

  /** The display types; `Name` gives the text fsleyes uses for each. */
  datatype DisplayType = Volume | Mask | RGBVector | LineVector | Label | SH | Tensor | ModelType

  function Name(t: DisplayType): string
  {
    match t
    case Volume => "volume"
    case Mask => "mask"
    case RGBVector => "rgbvector"
    case LineVector => "linevector"
    case Label => "label"
    case SH => "sh"
    case Tensor => "tensor"
    case ModelType => "model"
  }

  const IMAGE_TYPES: seq<DisplayType> :=
    [Volume, Mask, RGBVector, LineVector, Label, SH, Tensor]

  /** `OVERLAY_TYPES`: the display types per overlay class, the first being the default. */
  const OVERLAY_TYPES: map<string, seq<DisplayType>> := map[
    "Image" := IMAGE_TYPES,
    "Model" := [ModelType],
    "DTIFitTensor" := [Tensor, RGBVector, LineVector]
  ]

  /** `DISPLAY_OPTS_MAP`: the options class that holds each display type's settings. */
  const DISPLAY_OPTS_MAP: map<DisplayType, string> := map[
    Volume := "VolumeOpts",
    RGBVector := "RGBVectorOpts",
    LineVector := "LineVectorOpts",
    Mask := "MaskOpts",
    ModelType := "ModelOpts",
    Label := "LabelOpts",
    Tensor := "TensorOpts",
    SH := "SHOpts"
  ]

  predicate Distinct(s: seq<DisplayType>)
  {
    forall i, j :: 0 <= i < j < |s| ==> s[i] != s[j]
  }

  /** The distinct elements of `s`, in the order of their first occurrence. */
  function Dedup(s: seq<DisplayType>): (r: seq<DisplayType>)
    ensures Distinct(r)
    ensures forall x :: x in r <==> x in s
  {
    if |s| == 0 then []
    else
      var d := Dedup(s[..|s| - 1]);
      assert forall x :: x in s <==> x in s[..|s| - 1] || x == s[|s| - 1] by {
        assert s == s[..|s| - 1] + [s[|s| - 1]];
      }
      if s[|s| - 1] in d then d else d + [s[|s| - 1]]
  }

  /** `ALL_OVERLAY_TYPES`: every display type offered for some class, each once. The
      Python code builds it through a set, so its order is unspecified; this model
      lists first occurrences in the order of the table. */
  function AllOverlayTypes(): (r: seq<DisplayType>)
    ensures Distinct(r)
  {
    Dedup(OVERLAY_TYPES["Image"] + OVERLAY_TYPES["Model"] + OVERLAY_TYPES["DTIFitTensor"])
  }

  /** A type is listed in `ALL_OVERLAY_TYPES` exactly when some class offers it. */
  lemma AllOverlayTypesExact(t: DisplayType)
    ensures t in AllOverlayTypes() <==>
              exists k :: k in OVERLAY_TYPES && t in OVERLAY_TYPES[k]
  {
    var all := OVERLAY_TYPES["Image"] + OVERLAY_TYPES["Model"] + OVERLAY_TYPES["DTIFitTensor"];
    assert t in all <==>
             t in OVERLAY_TYPES["Image"] || t in OVERLAY_TYPES["Model"] ||
             t in OVERLAY_TYPES["DTIFitTensor"];
    assert OVERLAY_TYPES.Keys == {"Image", "Model", "DTIFitTensor"};
  }

  /** Every display type has an options class, and every options class belongs to a
      display type some overlay offers. */
  lemma DisplayOptsCoverAllTypes()
    ensures forall t :: t in AllOverlayTypes() <==> t in DISPLAY_OPTS_MAP
  {
    forall t ensures t in AllOverlayTypes() <==> t in DISPLAY_OPTS_MAP {
      AllOverlayTypesExact(t);
      assert OVERLAY_TYPES.Keys == {"Image", "Model", "DTIFitTensor"};
    }
  }

  /** The elements of `s` that are not in `rm`, in order. */
  function FilterOut(s: seq<DisplayType>, rm: set<DisplayType>): (r: seq<DisplayType>)
    ensures |r| <= |s|
  {
    if |s| == 0 then []
    else (if s[0] in rm then [] else [s[0]]) + FilterOut(s[1..], rm)
  }

  /** The filter keeps exactly the elements outside `rm`. */
  lemma {:induction false} FilterOutMembers(s: seq<DisplayType>, rm: set<DisplayType>, x: DisplayType)
    ensures x in FilterOut(s, rm) <==> x in s && x !in rm
  {
    if |s| > 0 {
      FilterOutMembers(s[1..], rm, x);
      assert x in s <==> x == s[0] || x in s[1..] by {
        assert s == [s[0]] + s[1..];
      }
    }
  }

  /** `list.remove(x)` with the `ValueError` swallowed: drops the first occurrence of
      `x`, and leaves a list without `x` as it is. */
  function RemoveFirst(s: seq<DisplayType>, x: DisplayType): (r: seq<DisplayType>)
    ensures x !in s ==> r == s
  {
    if |s| == 0 then s
    else if s[0] == x then s[1..]
    else
      assert s == [s[0]] + s[1..];
      [s[0]] + RemoveFirst(s[1..], x)
  }

  /** Removing `x` takes away one copy of `x` and nothing else. */
  lemma {:induction false} RemoveFirstCount(s: seq<DisplayType>, x: DisplayType)
    ensures multiset(RemoveFirst(s, x)) == multiset(s) - multiset{x}
  {
    if |s| > 0 {
      assert s == [s[0]] + s[1..];
      RemoveFirstCount(s[1..], x);
    }
  }

  /** `list.remove(x)`: `ValueError` when `x` is absent. */
  function ListRemove(s: seq<DisplayType>, x: DisplayType): (r: Result<seq<DisplayType>>)
    ensures r.Err? <==> x !in s
    ensures r.Ok? ==> r.value == RemoveFirst(s, x)
  {
    if x in s then Ok(RemoveFirst(s, x)) else Err(ValueError)
  }

  /** A successful `remove` shortens the list by one. */
  lemma ListRemoveLength(s: seq<DisplayType>, x: DisplayType)
    requires x in s
    ensures |ListRemove(s, x).value| == |s| - 1
  {
    RemoveFirstCount(s, x);
    assert x in multiset(s);
    assert multiset(s) == (multiset(s) - multiset{x}) + multiset{x};
    assert |multiset(RemoveFirst(s, x))| == |multiset(s)| - 1;
  }

  lemma {:induction false} FilterOutDistinct(s: seq<DisplayType>, rm: set<DisplayType>)
    requires Distinct(s)
    ensures Distinct(FilterOut(s, rm))
  {
    if |s| > 0 {
      assert Distinct(s[1..]) by {
        forall i, j | 0 <= i < j < |s[1..]| ensures s[1..][i] != s[1..][j] {
          assert s[1..][i] == s[i + 1] && s[1..][j] == s[j + 1];
        }
      }
      FilterOutDistinct(s[1..], rm);
      assert s[0] !in s[1..] by {
        forall k | 0 <= k < |s[1..]| ensures s[1..][k] != s[0] { assert s[1..][k] == s[k + 1]; }
      }
      FilterOutMembers(s[1..], rm, s[0]);
    }
  }

  /** On a list without duplicates, removing `x` is filtering `x` out. */
  lemma {:induction false} RemoveFirstIsFilter(s: seq<DisplayType>, x: DisplayType)
    requires Distinct(s)
    ensures RemoveFirst(s, x) == FilterOut(s, {x})
  {
    if |s| > 0 {
      assert s[0] !in s[1..] by {
        forall k | 0 <= k < |s[1..]| ensures s[1..][k] != s[0] { assert s[1..][k] == s[k + 1]; }
      }
      assert Distinct(s[1..]) by {
        forall i, j | 0 <= i < j < |s[1..]| ensures s[1..][i] != s[1..][j] {
          assert s[1..][i] == s[i + 1] && s[1..][j] == s[j + 1];
        }
      }
      RemoveFirstIsFilter(s[1..], x);
      if s[0] == x {
        FilterOutAbsent(s[1..], {x});
      }
    }
  }

  /** Filtering out values that do not occur changes nothing. */
  lemma {:induction false} FilterOutAbsent(s: seq<DisplayType>, rm: set<DisplayType>)
    requires forall x :: x in rm ==> x !in s
    ensures FilterOut(s, rm) == s
  {
    if |s| > 0 {
      assert s[0] !in rm;
      FilterOutAbsent(s[1..], rm);
      assert s == [s[0]] + s[1..];
    }
  }

  lemma {:induction false} FilterOutTwice(s: seq<DisplayType>, a: set<DisplayType>, b: set<DisplayType>)
    ensures FilterOut(FilterOut(s, a), b) == FilterOut(s, a + b)
  {
    if |s| > 0 {
      FilterOutTwice(s[1..], a, b);
      var h := if s[0] in a then [] else [s[0]];
      FilterOutConcat(h, FilterOut(s[1..], a), b);
      assert FilterOut(h, b) == if s[0] in a + b then [] else [s[0]] by {
        if h != [] { assert h[1..] == []; }
      }
    }
  }

  lemma {:induction false} FilterOutCons(c: DisplayType, t: seq<DisplayType>, rm: set<DisplayType>)
    ensures FilterOut([c] + t, rm) == (if c in rm then [] else [c]) + FilterOut(t, rm)
  {
    assert ([c] + t)[0] == c && ([c] + t)[1..] == t;
  }

  lemma {:induction false} FilterOutConcat(p: seq<DisplayType>, q: seq<DisplayType>, rm: set<DisplayType>)
    ensures FilterOut(p + q, rm) == FilterOut(p, rm) + FilterOut(q, rm)
  {
    if |p| > 0 {
      var h := if p[0] in rm then [] else [p[0]];
      FilterOutConcat(p[1..], q, rm);
      assert p + q == [p[0]] + (p[1..] + q);
      FilterOutCons(p[0], p[1..] + q, rm);
      assert p == [p[0]] + p[1..];
      FilterOutCons(p[0], p[1..], rm);
      assert h + (FilterOut(p[1..], rm) + FilterOut(q, rm)) ==
             (h + FilterOut(p[1..], rm)) + FilterOut(q, rm);
    } else {
      assert p + q == q;
    }
  }

  /** One removal in `getOverlayTypes`: when the list `cur` is the front part followed
      by the image entry with `a` filtered out, removing `x` (not in the front part)
      extends the filter to `b`, whether or not `x` was present. */
  lemma RemoveStep(moved: bool, a: set<DisplayType>, x: DisplayType,
                   b: set<DisplayType>, cur: seq<DisplayType>)
    requires moved ==> RGBVector in a && LineVector in a
    requires x !in Front(moved) && b == a + {x} && cur == Front(moved) + FilterOut(IMAGE_TYPES, a)
    ensures RemoveFirst(cur, x) == Front(moved) + FilterOut(IMAGE_TYPES, b)
  {
    var pre := Front(moved);
    FrontDistinct(pre, a);
    RemoveFirstIsFilter(cur, x);
    FilterOutConcat(pre, FilterOut(IMAGE_TYPES, a), {x});
    FilterOutAbsent(pre, {x});
    FilterOutTwice(IMAGE_TYPES, a, {x});
  }

  predicate CouldBeVector(shape: seq<int>)
  {
    |shape| == 4 && shape[3] == 3
  }

  predicate CouldBeTensor(shape: seq<int>)
  {
    |shape| == 4 && shape[3] == 6
  }

  /** `shTypes` stands for `SH_COEFFICIENT_TYPE`, whose keys are the numbers of
      spherical-harmonic coefficients an image's last dimension may have. */
  predicate CouldBeSH(shape: seq<int>, shTypes: set<int>)
  {
    |shape| == 4 && shape[3] in shTypes
  }

  function VectorExcluded(shape: seq<int>): set<DisplayType>
  {
    if CouldBeVector(shape) then {} else {RGBVector, LineVector}
  }

  function SHExcluded(shape: seq<int>, shTypes: set<int>): set<DisplayType>
  {
    if CouldBeSH(shape, shTypes) then {} else {SH}
  }

  function TensorExcluded(shape: seq<int>): set<DisplayType>
  {
    if CouldBeTensor(shape) then {} else {Tensor}
  }

  /** The display types an image of this shape cannot be shown as. */
  function ExcludedTypes(shape: seq<int>, shTypes: set<int>): (x: set<DisplayType>)
    ensures Volume !in x
    ensures RGBVector in x <==> !CouldBeVector(shape)
    ensures LineVector in x <==> !CouldBeVector(shape)
    ensures SH in x <==> !CouldBeSH(shape, shTypes)
    ensures Tensor in x <==> !CouldBeTensor(shape)
  {
    VectorExcluded(shape) + SHExcluded(shape, shTypes) + TensorExcluded(shape)
  }

  /** What `getOverlayTypes` offers for an image: the image entry without the types
      the shape rules out; for an RGB vector image, `rgbvector` and `linevector` come
      first, followed by the rest in table order. */
  function ImageSelection(shape: seq<int>, intent: int, shTypes: set<int>): seq<DisplayType>
  {
    var excluded := ExcludedTypes(shape, shTypes);
    if CouldBeVector(shape) && intent == NIFTI_INTENT_RGB_VECTOR then
      [RGBVector, LineVector] + FilterOut(IMAGE_TYPES, {RGBVector, LineVector} + excluded)
    else
      FilterOut(IMAGE_TYPES, excluded)
  }

  /** The types the vector cases take out of the table order. */
  function VectorRemoved(couldBeVector: bool, rgbIntent: bool): set<DisplayType>
  {
    if couldBeVector && !rgbIntent then {} else {RGBVector, LineVector}
  }

  /** The types moved to the front of an RGB vector image's list. */
  function Front(moved: bool): seq<DisplayType>
  {
    if moved then [RGBVector, LineVector] else []
  }

  /** `getOverlayTypes`: a copy of the class's entry (`KeyError` for an unregistered
      class), and for an image the selection above, built by the Python code's sequence of
      `remove` and `insert` calls on that copy: first the vector cases, then the SH and
      tensor cases. */
  method GetOverlayTypes(overlay: Overlay, shTypes: set<int>) returns (r: Result<seq<DisplayType>>)
    ensures ClassName(overlay) !in OVERLAY_TYPES <==> r == Err(KeyError)
    ensures ClassName(overlay) in OVERLAY_TYPES && !overlay.Image? ==>
              r == Ok(OVERLAY_TYPES[ClassName(overlay)])
    ensures overlay.Image? ==> r == Ok(ImageSelection(overlay.shape, overlay.intent, shTypes))
  {
    var name := ClassName(overlay);
    if name !in OVERLAY_TYPES {
      return Err(KeyError);
    }
    var possibleTypes := OVERLAY_TYPES[name];
    if !overlay.Image? {
      return Ok(possibleTypes);
    }
    var shape := overlay.shape;
    var couldBeVector := CouldBeVector(shape);
    var couldBeTensor := CouldBeTensor(shape);
    var couldBeSH := CouldBeSH(shape, shTypes);
    var rgb := couldBeVector && overlay.intent == NIFTI_INTENT_RGB_VECTOR;

    possibleTypes := ApplyVectorCases(possibleTypes, couldBeVector, overlay.intent == NIFTI_INTENT_RGB_VECTOR);
    ghost var removed := VectorRemoved(couldBeVector, overlay.intent == NIFTI_INTENT_RGB_VECTOR);
    possibleTypes := ApplyShapeCases(possibleTypes, rgb, removed, couldBeSH, couldBeTensor);
    SelectionReached(rgb, removed, shape, overlay.intent, shTypes);
    return Ok(possibleTypes);
  }

  /** The vector cases of `getOverlayTypes` on the fresh copy of the image entry: an RGB
      vector image gets `rgbvector` and `linevector` moved to the front; an image that
      cannot be a vector image loses both. */
  method ApplyVectorCases(possibleTypes: seq<DisplayType>, couldBeVector: bool, rgbIntent: bool)
    returns (p: seq<DisplayType>)
    requires possibleTypes == IMAGE_TYPES
    ensures p == Front(couldBeVector && rgbIntent) +
                 FilterOut(IMAGE_TYPES, VectorRemoved(couldBeVector, rgbIntent))
  {
    p := possibleTypes;
    if couldBeVector {
      if rgbIntent {
        p := MoveVectorsToFront(p);
      } else {
        FilterOutAbsent(IMAGE_TYPES, {});
      }
    } else {
      p := DropVectors(p);
    }
  }

  /** `possibleTypes.remove('rgbvector')`, `remove('linevector')`, then both inserted
      at the front; both removals are unguarded in the Python code, and the image entry
      holds both types. */
  method MoveVectorsToFront(possibleTypes: seq<DisplayType>) returns (p: seq<DisplayType>)
    requires possibleTypes == IMAGE_TYPES
    ensures p == Front(true) + FilterOut(possibleTypes, {RGBVector, LineVector})
  {
    ImageTypesDistinct(possibleTypes);
    RemoveTwiceIsFilter(possibleTypes, RGBVector, LineVector);
    p := possibleTypes;
    p := RemoveFirst(p, RGBVector);
    p := RemoveFirst(p, LineVector);
    ghost var rest := p;
    p := [LineVector] + p;
    p := [RGBVector] + p;
    PrependFront(rest);
  }

  lemma PrependFront(rest: seq<DisplayType>)
    ensures [RGBVector] + ([LineVector] + rest) == Front(true) + rest
  {
  }

  /** The guarded removals of `rgbvector` and `linevector` for an image that cannot be
      a vector image. */
  method DropVectors(possibleTypes: seq<DisplayType>) returns (p: seq<DisplayType>)
    requires possibleTypes == IMAGE_TYPES
    ensures p == FilterOut(possibleTypes, {RGBVector, LineVector})
  {
    ImageTypesDistinct(possibleTypes);
    RemoveTwiceIsFilter(possibleTypes, RGBVector, LineVector);
    p := possibleTypes;
    p := TryRemove(p, RGBVector);
    p := TryRemove(p, LineVector);
  }

  lemma ImageTypesDistinct(s: seq<DisplayType>)
    requires s == IMAGE_TYPES
    ensures Distinct(s)
  {
  }

  /** On a list without duplicates, removing `a` and then `b` filters both out, and `b`
      survives the first removal. */
  lemma RemoveTwiceIsFilter(s: seq<DisplayType>, a: DisplayType, b: DisplayType)
    requires Distinct(s)
    ensures RemoveFirst(RemoveFirst(s, a), b) == FilterOut(s, {a, b})
    ensures b in s && b != a ==> b in RemoveFirst(s, a)
  {
    RemoveFirstIsFilter(s, a);
    FilterOutDistinct(s, {a});
    RemoveFirstIsFilter(FilterOut(s, {a}), b);
    FilterOutTwice(s, {a}, {b});
    assert {a} + {b} == {a, b};
    FilterOutMembers(s, {a}, b);
  }

  /** The SH and tensor cases of `getOverlayTypes`: each type is removed, if present,
      when the shape rules it out. */
  method ApplyShapeCases(possibleTypes: seq<DisplayType>, ghost moved: bool,
                         ghost removed: set<DisplayType>, couldBeSH: bool, couldBeTensor: bool)
    returns (p: seq<DisplayType>)
    requires moved ==> RGBVector in removed && LineVector in removed
    requires possibleTypes == Front(moved) + FilterOut(IMAGE_TYPES, removed)
    ensures p == Front(moved) + FilterOut(IMAGE_TYPES, removed + (if couldBeSH then {} else {SH}) +
                                                   (if couldBeTensor then {} else {Tensor}))
  {
    p := possibleTypes;
    ghost var a := removed;
    if !couldBeSH {
      RemoveStep(moved, a, SH, a + {SH}, p);
      p := TryRemove(p, SH);
      a := a + {SH};
    }
    assert a == removed + (if couldBeSH then {} else {SH});
    if !couldBeTensor {
      RemoveStep(moved, a, Tensor, a + {Tensor}, p);
      p := TryRemove(p, Tensor);
      a := a + {Tensor};
    }
    assert a == removed + (if couldBeSH then {} else {SH}) + (if couldBeTensor then {} else {Tensor});
  }

  /** Where the two stages of `getOverlayTypes` end up. */
  lemma SelectionReached(moved: bool, removed: set<DisplayType>, shape: seq<int>,
                         intent: int, shTypes: set<int>)
    requires moved == (CouldBeVector(shape) && intent == NIFTI_INTENT_RGB_VECTOR)
    requires removed == VectorRemoved(CouldBeVector(shape), intent == NIFTI_INTENT_RGB_VECTOR)
    ensures Front(moved) + FilterOut(IMAGE_TYPES, removed +
                (if CouldBeSH(shape, shTypes) then {} else {SH}) +
                (if CouldBeTensor(shape) then {} else {Tensor})) ==
              ImageSelection(shape, intent, shTypes)
  {
    var ex := ExcludedTypes(shape, shTypes);
    var all := removed + (if CouldBeSH(shape, shTypes) then {} else {SH}) +
               (if CouldBeTensor(shape) then {} else {Tensor});
    if moved {
      assert all == {RGBVector, LineVector} + ex;
    } else {
      assert all == ex;
      assert Front(moved) + FilterOut(IMAGE_TYPES, ex) == FilterOut(IMAGE_TYPES, ex);
    }
  }

  /** The lists `getOverlayTypes` works on never hold a type twice. */
  lemma FrontDistinct(pre: seq<DisplayType>, removed: set<DisplayType>)
    requires pre == [] || (pre == [RGBVector, LineVector] && RGBVector in removed && LineVector in removed)
    ensures Distinct(pre + FilterOut(IMAGE_TYPES, removed))
  {
    var f := FilterOut(IMAGE_TYPES, removed);
    FilterOutDistinct(IMAGE_TYPES, removed);
    if pre != [] {
      FilterOutMembers(IMAGE_TYPES, removed, RGBVector);
      FilterOutMembers(IMAGE_TYPES, removed, LineVector);
      forall i, j | 0 <= i < j < |pre + f| ensures (pre + f)[i] != (pre + f)[j] {
        if j >= 2 {
          assert (pre + f)[j] == f[j - 2];
          if i >= 2 { assert (pre + f)[i] == f[i - 2]; }
        }
      }
    }
  }

  /** `try: s.remove(x) except ValueError: pass` */
  function TryRemove(s: seq<DisplayType>, x: DisplayType): (r: seq<DisplayType>)
    ensures r == RemoveFirst(s, x)
  {
    match ListRemove(s, x)
    case Ok(s') => s'
    case Err(_) => s
  }

  /** An image is offered exactly the entry's types its shape does not rule out: the
      volume type always, both vector types iff it is 4D with 3 volumes, the tensor
      type iff 4D with 6 volumes, the SH type iff 4D with a known coefficient count. */
  lemma ImageSelectionMembers(shape: seq<int>, intent: int, shTypes: set<int>, t: DisplayType)
    ensures t in ImageSelection(shape, intent, shTypes) <==>
              t in IMAGE_TYPES && t !in ExcludedTypes(shape, shTypes)
    ensures Volume in ImageSelection(shape, intent, shTypes)
    ensures RGBVector in ImageSelection(shape, intent, shTypes) <==> CouldBeVector(shape)
    ensures LineVector in ImageSelection(shape, intent, shTypes) <==> CouldBeVector(shape)
    ensures Tensor in ImageSelection(shape, intent, shTypes) <==> CouldBeTensor(shape)
    ensures SH in ImageSelection(shape, intent, shTypes) <==> CouldBeSH(shape, shTypes)
  {
    var ex := ExcludedTypes(shape, shTypes);
    var both := {RGBVector, LineVector} + ex;
    forall u | u in {t, Volume, RGBVector, LineVector, Tensor, SH}
      ensures u in ImageSelection(shape, intent, shTypes) <==> u in IMAGE_TYPES && u !in ex
    {
      FilterOutMembers(IMAGE_TYPES, ex, u);
      FilterOutMembers(IMAGE_TYPES, both, u);
    }
  }

  /** The selection never repeats a type. */
  lemma ImageSelectionDistinct(shape: seq<int>, intent: int, shTypes: set<int>)
    ensures Distinct(ImageSelection(shape, intent, shTypes))
  {
    var ex := ExcludedTypes(shape, shTypes);
    if CouldBeVector(shape) && intent == NIFTI_INTENT_RGB_VECTOR {
      FrontDistinct([RGBVector, LineVector], {RGBVector, LineVector} + ex);
    } else {
      FrontDistinct([], ex);
      assert [] + FilterOut(IMAGE_TYPES, ex) == FilterOut(IMAGE_TYPES, ex);
    }
  }

  /** The default display type (the first one offered) is `rgbvector` for an RGB vector
      image and `volume` for every other image. */
  lemma ImageSelectionDefault(shape: seq<int>, intent: int, shTypes: set<int>)
    ensures |ImageSelection(shape, intent, shTypes)| > 0
    ensures ImageSelection(shape, intent, shTypes)[0] ==
              if CouldBeVector(shape) && intent == NIFTI_INTENT_RGB_VECTOR then RGBVector else Volume
  {
    var ex := ExcludedTypes(shape, shTypes);
    FilterOutCons(Volume, IMAGE_TYPES[1..], ex);
    assert IMAGE_TYPES == [Volume] + IMAGE_TYPES[1..];
  }
}
