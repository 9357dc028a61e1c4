/** The settings registry of the overlay display panel: for every display class, the
    list of properties it shows and the widget specification of each, found by walking
    the class hierarchy for initialiser functions named `prefix + ClassName`, cached per
    class, and combined over the class and its bases. */
module OverlayDisplayWidgets {
  import opened Wrappers

  // ---------------------------------------------------------------------------------
  // Class hierarchy and the initialiser walk
  // ---------------------------------------------------------------------------------

  /** A Python class object: its `__name__` and its `__bases__`, in declaration order. */
  datatype PyType = PyType(name: string, bases: seq<PyType>)

  /** What `_getInitFuncs` and `_getThing` are given: a class, or an instance of one. */
  datatype Target = ClassObject(cls: PyType) | Instance(cls: PyType)

  /** `target` itself when it is a class, `type(target)` otherwise. */
  function TypeOf(target: Target): PyType
  {
    match target
    case ClassObject(c) => c
    case Instance(c) => c
  }

  /** The concatenation of a list of lists, `functools.reduce(lambda a, b: a + b, ...)`
      when the list is not empty. */
  function Concat<X>(parts: seq<seq<X>>): seq<X>
  {
    if |parts| == 0 then [] else Concat(parts[..|parts| - 1]) + parts[|parts| - 1]
  }

  /** The keys `_getInitFuncs` returns for class `t`: none when the module has no
      function `prefix + t.name`, and otherwise `t.name` followed by the keys of each
      base in declaration order. `attrs` stands for the module's functions by name. */
  function InitKeys<T>(attrs: map<string, T>, prefix: string, t: PyType): seq<string>
    decreases t
  {
    if prefix + t.name !in attrs then []
    else [t.name] + Concat(BaseKeys(attrs, prefix, t))
  }

  /** The keys found under each base of `t`. */
  function BaseKeys<T>(attrs: map<string, T>, prefix: string, t: PyType): (ks: seq<seq<string>>)
    ensures |ks| == |t.bases|
    decreases t, 0
  {
    seq(|t.bases|, i requires 0 <= i < |t.bases| => InitKeys(attrs, prefix, t.bases[i]))
  }

  /** The initialiser names belonging to a list of keys. */
  function FuncNames(prefix: string, keys: seq<string>): (names: seq<string>)
    ensures |names| == |keys|
  {
    seq(|keys|, i requires 0 <= i < |keys| => prefix + keys[i])
  }

  /** `_getInitFuncs(prefix, target)`: the keys and, aligned with them, the initialiser
      functions (by name) found on the walk. The walk is depth first, the class before
      its bases, and a class without an initialiser contributes nothing, not even through
      its bases. */
  method GetInitFuncs<T>(attrs: map<string, T>, prefix: string, target: Target)
    returns (keys: seq<string>, funcs: seq<string>)
    ensures keys == InitKeys(attrs, prefix, TypeOf(target))
    ensures funcs == FuncNames(prefix, keys)
    decreases TypeOf(target)
  {
    var ttype := TypeOf(target);
    var key := ttype.name;
    var bases := ttype.bases;
    var initFunc := prefix + key;
    if initFunc !in attrs {
      return [], [];
    }
    keys := [key];
    funcs := [initFunc];
    ghost var parts := BaseKeys(attrs, prefix, ttype);
    var i := 0;
    while i < |bases|
      invariant 0 <= i <= |bases|
      invariant keys == [key] + Concat(parts[..i])
      invariant funcs == FuncNames(prefix, keys)
    {
      var bkeys, bfuncs := GetInitFuncs(attrs, prefix, ClassObject(bases[i]));
      assert parts[..i + 1][..i] == parts[..i];
      keys := keys + bkeys;
      funcs := funcs + bfuncs;
      i := i + 1;
    }
    assert parts[..|bases|] == parts;
  }

  /** Every key of the walk has its initialiser in the module. */
  lemma {:induction false} InitKeysRegistered<T>(attrs: map<string, T>, prefix: string, t: PyType)
    ensures forall k :: k in InitKeys(attrs, prefix, t) ==> prefix + k in attrs
    decreases t
  {
    if prefix + t.name in attrs {
      var parts := BaseKeys(attrs, prefix, t);
      forall i | 0 <= i < |parts| ensures forall k :: k in parts[i] ==> prefix + k in attrs {
        InitKeysRegistered(attrs, prefix, t.bases[i]);
      }
      ConcatMembers(parts);
    }
  }

  /** A class whose initialiser is missing yields nothing; otherwise its own key leads. */
  lemma InitKeysHead<T>(attrs: map<string, T>, prefix: string, t: PyType)
    ensures prefix + t.name !in attrs ==> InitKeys(attrs, prefix, t) == []
    ensures prefix + t.name in attrs ==>
              |InitKeys(attrs, prefix, t)| >= 1 && InitKeys(attrs, prefix, t)[0] == t.name
  {
  }

  /** The elements of a concatenation are the elements of its parts. */
  lemma {:induction false} ConcatMembers<X>(parts: seq<seq<X>>)
    ensures forall x :: x in Concat(parts) <==> exists i :: 0 <= i < |parts| && x in parts[i]
  {
    if |parts| > 0 {
      var init := parts[..|parts| - 1];
      ConcatMembers(init);
      forall x ensures x in Concat(parts) <==> exists i :: 0 <= i < |parts| && x in parts[i] {
        if x in Concat(init) {
          var i :| 0 <= i < |init| && x in init[i];
          assert x in parts[i];
        }
        if exists i :: 0 <= i < |parts| && x in parts[i] {
          var i :| 0 <= i < |parts| && x in parts[i];
          if i < |parts| - 1 { assert x in init[i]; }
        }
      }
    }
  }

  // ---------------------------------------------------------------------------------
  // The per-class cache
  // ---------------------------------------------------------------------------------

  /** The cache after storing, for each key in turn, what its initialiser returns (a
      key without an initialiser, which the walk never yields, is passed over). */
  function Fill<T>(things: map<string, T>, attrs: map<string, T>, prefix: string,
                   keys: seq<string>): map<string, T>
  {
    if |keys| == 0 then things
    else
      var m := Fill(things, attrs, prefix, keys[..|keys| - 1]);
      var k := keys[|keys| - 1];
      if prefix + k in attrs then m[k := attrs[prefix + k]] else m
  }

  /** Filling stores every walked key's initialiser result and leaves other keys alone. */
  lemma {:induction false} FillContents<T>(things: map<string, T>, attrs: map<string, T>,
                                           prefix: string, keys: seq<string>)
    requires forall k :: k in keys ==> prefix + k in attrs
    ensures Fill(things, attrs, prefix, keys).Keys == things.Keys + set k | k in keys
    ensures forall k :: k in keys ==> Fill(things, attrs, prefix, keys)[k] == attrs[prefix + k]
    ensures forall k :: k in things && k !in keys ==> Fill(things, attrs, prefix, keys)[k] == things[k]
  {
    if |keys| > 0 {
      var init := keys[..|keys| - 1];
      assert forall k :: k in keys <==> k in init || k == keys[|keys| - 1] by {
        assert keys == init + [keys[|keys| - 1]];
      }
      FillContents(things, attrs, prefix, init);
    }
  }

  /** The values `TypeDict.get(target, allhits=True)` returns, in the order it tries
      the keys (`order`, a parameter: that lookup belongs to another library), or
      `None` when nothing is found. */
  function Hits<T>(things: map<string, T>, order: seq<string>): (r: Option<seq<T>>)
    ensures r.Some? ==> |r.value| >= 1
  {
    if |order| == 0 then None
    else
      var last := order[|order| - 1];
      var init := Hits(things, order[..|order| - 1]);
      if last !in things then init
      else if init.None? then Some([things[last]])
      else Some(init.value + [things[last]])
  }

  /** The hits are the cached values of the tried keys, nothing else, and none are found
      only when no tried key is cached. */
  lemma {:induction false} HitsMembers<T>(things: map<string, T>, order: seq<string>)
    ensures Hits(things, order).None? <==> forall k :: k in order ==> k !in things
    ensures Hits(things, order).Some? ==>
              forall v :: v in Hits(things, order).value ==>
                exists k :: k in order && k in things && things[k] == v
  {
    if |order| > 0 {
      var init := order[..|order| - 1];
      assert forall k :: k in order <==> k in init || k == order[|order| - 1] by {
        assert order == init + [order[|order| - 1]];
      }
      HitsMembers(things, init);
    }
  }

  /** One of `_PROPERTIES`, `_3D_PROPERTIES`, `_WIDGET_SPECS`, `_3D_WIDGET_SPECS`: the
      values the initialisers returned, keyed by class name. */
  class ThingCache<T> {
    var things: map<string, T>

    constructor()
      ensures things == map[]
    {
      things := map[];
    }

    /** `_getThing(target, prefix, thingDict)`: when nothing is cached under the
        target's own class, every key of the walk is filled with what its initialiser
        returns; then all hits are looked up. */
    method GetThing(target: Target, prefix: string, attrs: map<string, T>, order: seq<string>)
      returns (r: Option<seq<T>>)
      modifies this
      ensures TypeOf(target).name in old(things) ==> things == old(things)
      ensures TypeOf(target).name !in old(things) ==>
                things == Fill(old(things), attrs, prefix, InitKeys(attrs, prefix, TypeOf(target)))
      ensures r == Hits(things, order)
    {
      var name := TypeOf(target).name;
      if name !in things {
        var keys, funcs := GetInitFuncs(attrs, prefix, target);
        InitKeysRegistered(attrs, prefix, TypeOf(target));
        ghost var before := things;
        var i := 0;
        while i < |keys|
          invariant 0 <= i <= |keys|
          invariant things == Fill(before, attrs, prefix, keys[..i])
        {
          assert keys[..i + 1][..i] == keys[..i];
          things := things[keys[i] := attrs[funcs[i]]];
          i := i + 1;
        }
        assert keys[..|keys|] == keys;
      }
      r := Hits(things, order);
    }
  }

  /** After `_getThing` the cache holds, for every class of the walk, its initialiser's
      result, alongside whatever was cached before. */
  lemma GetThingFills<T>(things: map<string, T>, attrs: map<string, T>, prefix: string, t: PyType)
    requires t.name !in things
    ensures forall k :: k in InitKeys(attrs, prefix, t) ==> prefix + k in attrs
    ensures Fill(things, attrs, prefix, InitKeys(attrs, prefix, t)).Keys ==
              things.Keys + set k | k in InitKeys(attrs, prefix, t)
    ensures t.name in Fill(things, attrs, prefix, InitKeys(attrs, prefix, t)) <==> prefix + t.name in attrs
    ensures forall k :: k in InitKeys(attrs, prefix, t) ==>
              Fill(things, attrs, prefix, InitKeys(attrs, prefix, t))[k] == attrs[prefix + k]
    ensures forall k :: k in things && k !in InitKeys(attrs, prefix, t) ==>
              Fill(things, attrs, prefix, InitKeys(attrs, prefix, t))[k] == things[k]
  {
    InitKeysRegistered(attrs, prefix, t);
    FillContents(things, attrs, prefix, InitKeys(attrs, prefix, t));
    InitKeysHead(attrs, prefix, t);
  }

  // ---------------------------------------------------------------------------------
  // Combining the hits
  // ---------------------------------------------------------------------------------

  /** `_merge_dicts(d1, d2)`: a copy of `d1` updated with `d2`. */
  function MergeDicts<K, V>(d1: map<K, V>, d2: map<K, V>): (d3: map<K, V>)
    ensures d3.Keys == d1.Keys + d2.Keys
    ensures forall k :: k in d2 ==> d3[k] == d2[k]
    ensures forall k :: k in d1 && k !in d2 ==> d3[k] == d1[k]
  {
    d1 + d2
  }

  /** `functools.reduce(_merge_dicts, ds)` for a non-empty list. */
  function MergeAll<K, V>(ds: seq<map<K, V>>): map<K, V>
    requires |ds| >= 1
  {
    if |ds| == 1 then ds[0] else MergeDicts(MergeAll(ds[..|ds| - 1]), ds[|ds| - 1])
  }

  /** The folded dictionary has every key of every hit, and each key's value comes from
      the last hit that has it: later hits win. */
  lemma {:induction false} MergeAllLastWins<K, V>(ds: seq<map<K, V>>, k: K)
    requires |ds| >= 1
    ensures k in MergeAll(ds) <==> exists i :: 0 <= i < |ds| && k in ds[i]
    ensures forall i :: 0 <= i < |ds| && k in ds[i] && (forall j :: i < j < |ds| ==> k !in ds[j]) ==>
              MergeAll(ds)[k] == ds[i][k]
  {
    if |ds| > 1 {
      var init := ds[..|ds| - 1];
      MergeAllLastWins(init, k);
      if exists i :: 0 <= i < |ds| && k in ds[i] {
        var i :| 0 <= i < |ds| && k in ds[i];
        if i < |ds| - 1 && k !in ds[|ds| - 1] { assert k in init[i]; }
      }
      forall i | 0 <= i < |ds| && k in ds[i] && (forall j :: i < j < |ds| ==> k !in ds[j])
        ensures MergeAll(ds)[k] == ds[i][k]
      {
        if i < |ds| - 1 {
          assert init[i] == ds[i];
          assert forall j :: i < j < |init| ==> k !in init[j] by {
            forall j | i < j < |init| ensures k !in init[j] { assert init[j] == ds[j]; }
          }
        }
      }
    }
  }

  /** `getPropertyList` / `get3DPropertyList` once the hits are known: `[]` for no hit,
      otherwise the hits' lists one after another. */
  function PropertyList<P>(hits: Option<seq<seq<P>>>): seq<P>
  {
    match hits
    case None => []
    case Some(lists) => Concat(lists)
  }

  /** A property is listed exactly when one of the hits lists it. */
  lemma PropertyListMembers<P>(hits: Option<seq<seq<P>>>, p: P)
    ensures hits.None? ==> PropertyList(hits) == []
    ensures hits.Some? ==>
              (p in PropertyList(hits) <==> exists i :: 0 <= i < |hits.value| && p in hits.value[i])
  {
    if hits.Some? {
      ConcatMembers(hits.value);
    }
  }

  /** `getWidgetSpecs` / `get3DWidgetSpecs` once the hits are known: `{}` for no hit,
      otherwise the fold of `_merge_dicts` over the hits. */
  function WidgetSpecDict<K, V>(hits: Option<seq<map<K, V>>>): map<K, V>
    requires hits.Some? ==> |hits.value| >= 1
  {
    match hits
    case None => map[]
    case Some(ds) => MergeAll(ds)
  }

  // ---------------------------------------------------------------------------------
  // Property names, widget specifications and enabledWhen rules
  // ---------------------------------------------------------------------------------

  /** The properties the tables name; each constructor is the property of the same name
      (`CustomCmap` is `custom_cmap`, and so on). */
  datatype Prop =
    | Name | OverlayType | Enabled | Alpha | Brightness | Contrast
    | Volume | Interpolation | CustomCmap | CmapResolution | InterpolateCmaps | Invert
    | InvertClipping | LinkLowRanges | LinkHighRanges | DisplayRange | ClippingRange
    | ClipImage | CustomOverrideDataRange | Dithering | NumSteps | NumClipPlanes
    | Colour | Threshold | ColourImage | ModulateImage | ModulateRange
    | XColour | YColour | ZColour | SuppressX | SuppressY | SuppressZ | SuppressMode
    | Directed | UnitLength | OrientFlip | LineWidth | LengthScale
    | Lighting | TensorResolution | TensorScale
    | RefImage | CoordSpace | Outline | OutlineWidth | CustomVertexData | VertexDataIndex
    | CustomLut | DiscardClipped | Wireframe | Lut
    | ShResolution | ShOrder | Size | RadiusThreshold | ColourMode
    | Cmap | UseNegativeCmap | NegativeCmap | EnableOverrideDataRange | OverrideDataRange
    | VertexData | UseLut

  /** A property value as an `enabledWhen` rule sees it. */
  datatype Value = NoneVal | BoolVal(b: bool) | TextVal(s: string) | ObjVal(id: nat)

  /** Python truthiness of a value. */
  predicate Truthy(v: Value)
  {
    match v
    case NoneVal => false
    case BoolVal(b) => b
    case TextVal(s) => |s| > 0
    case ObjVal(_) => true
  }

  /** The `enabledWhen` functions of the tables, one constructor per distinct lambda.
      The arguments are the dependency values, in the order of `dependencies`. */
  datatype Rule =
    | Always                  // no enabledWhen
    | Is4DImage               // lambda o: o.overlay.is4DImage()
    | DepTruthy               // lambda o, x: x
    | DepIsNone               // lambda o, x: x is None
    | DepNotNone              // lambda o, x: x is not None
    | DepNotText(t: string)   // lambda o, x: x != t
    | NoneThenNotNone         // lambda o, a, b: a is None and b is not None
    | NotNoneOrText(t: string)  // lambda o, a, b: a is not None or b == t
    | NoneAndText(t: string)  // lambda o, a, b: a is None and b == t
    | MeshColourRule          // colourEnabledWhen(o, vdata, outline, useLut)
    | NotNoneAndTruthy        // lambda o, a, b: (a is not None) and b

  /** The number of dependency values each rule takes. */
  function Arity(r: Rule): nat
  {
    match r
    case Always => 0
    case Is4DImage => 0
    case DepTruthy => 1
    case DepIsNone => 1
    case DepNotNone => 1
    case DepNotText(_) => 1
    case NoneThenNotNone => 2
    case NotNoneOrText(_) => 2
    case NoneAndText(_) => 2
    case MeshColourRule => 3
    case NotNoneAndTruthy => 2
  }

  /** What the rule's lambda returns, read as a truth value. `is4D` stands for
      `o.overlay.is4DImage()`. */
  function Holds(r: Rule, is4D: bool, args: seq<Value>): bool
    requires |args| == Arity(r)
  {
    match r
    case Always => true
    case Is4DImage => is4D
    case DepTruthy => Truthy(args[0])
    case DepIsNone => args[0] == NoneVal
    case DepNotNone => args[0] != NoneVal
    case DepNotText(t) => args[0] != TextVal(t)
    case NoneThenNotNone => args[0] == NoneVal && args[1] != NoneVal
    case NotNoneOrText(t) => args[0] != NoneVal || args[1] == TextVal(t)
    case NoneAndText(t) => args[0] == NoneVal && args[1] == TextVal(t)
    case MeshColourRule => Truthy(args[1]) && args[0] != NoneVal && !Truthy(args[2])
    case NotNoneAndTruthy => args[0] != NoneVal && Truthy(args[1])
  }

  /** A `props.Widget(key, dependencies=deps, enabledWhen=when)`; labels, sliders and
      the other display options are not modelled. */
  datatype WidgetSpec = WidgetSpec(key: Prop, deps: seq<Prop>, when: Rule)

  /** The functions that build a composite widget themselves. */
  datatype Builder =
    | ColourMapOpts_ColourMapWidget
    | VolumeOpts_OverrideDataRangeWidget
    | MeshOpts_VertexDataWidget
    | MeshOpts_LutWidget

  /** A table entry: a declarative widget, or a builder function. */
  datatype Spec = Declared(widget: WidgetSpec) | Built(builder: Builder)

  /** Whether the widget for a spec is enabled, given the current value of every
      property; a builder's widget has no rule of its own. */
  function IsEnabled(s: Spec, is4D: bool, env: Prop -> Value): bool
  {
    match s
    case Built(_) => true
    case Declared(w) =>
      var args := seq(|w.deps|, i requires 0 <= i < |w.deps| => env(w.deps[i]));
      if |args| == Arity(w.when) then Holds(w.when, is4D, args) else false
  }

  function Plain(p: Prop): Spec
  {
    Declared(WidgetSpec(p, [], Always))
  }

  function When(p: Prop, deps: seq<Prop>, r: Rule): Spec
  {
    Declared(WidgetSpec(p, deps, r))
  }

  // The `_init*` tables.

  const DISPLAY_PROPERTIES: seq<Prop> := [Name, OverlayType, Enabled, Alpha, Brightness, Contrast]

  const VOLUME_PROPERTIES: seq<Prop> :=
    [Volume, Interpolation, CustomCmap, CmapResolution, InterpolateCmaps, Invert,
     InvertClipping, LinkLowRanges, LinkHighRanges, DisplayRange, ClippingRange, ClipImage,
     CustomOverrideDataRange]

  const VOLUME_3D_PROPERTIES: seq<Prop> := [Dithering, NumSteps, NumClipPlanes]

  const MASK_PROPERTIES: seq<Prop> := [Volume, Colour, Invert, Threshold]

  const VECTOR_PROPERTIES: seq<Prop> :=
    [ColourImage, ModulateImage, ClipImage, CustomCmap, ClippingRange, ModulateRange,
     XColour, YColour, ZColour, SuppressX, SuppressY, SuppressZ, SuppressMode]

  const RGB_VECTOR_PROPERTIES: seq<Prop> := [Interpolation]

  const LINE_VECTOR_PROPERTIES: seq<Prop> := [Directed, UnitLength, OrientFlip, LineWidth, LengthScale]

  const TENSOR_PROPERTIES: seq<Prop> := [Lighting, OrientFlip, TensorResolution, TensorScale]

  const MESH_PROPERTIES: seq<Prop> :=
    [RefImage, CoordSpace, Outline, OutlineWidth, Colour, CustomVertexData, VertexDataIndex,
     CustomLut, CustomCmap, CmapResolution, InterpolateCmaps, Invert, InvertClipping,
     DiscardClipped, LinkLowRanges, LinkHighRanges, DisplayRange, ClippingRange]

  const MESH_3D_PROPERTIES: seq<Prop> := [Wireframe, Lighting]

  const LABEL_PROPERTIES: seq<Prop> := [Lut, Outline, OutlineWidth, Volume]

  const SH_PROPERTIES: seq<Prop> :=
    [ShResolution, ShOrder, OrientFlip, Lighting, Size, RadiusThreshold, ColourMode]

  /** The module's `_initPropertyList_*` and `_init3DPropertyList_*` functions, by name,
      with what each returns. */
  const PROPERTY_LIST_FUNCS: map<string, seq<Prop>> := map[
    "_initPropertyList_Display" := DISPLAY_PROPERTIES,
    "_initPropertyList_VolumeOpts" := VOLUME_PROPERTIES,
    "_init3DPropertyList_VolumeOpts" := VOLUME_3D_PROPERTIES,
    "_initPropertyList_MaskOpts" := MASK_PROPERTIES,
    "_initPropertyList_VectorOpts" := VECTOR_PROPERTIES,
    "_initPropertyList_RGBVectorOpts" := RGB_VECTOR_PROPERTIES,
    "_initPropertyList_LineVectorOpts" := LINE_VECTOR_PROPERTIES,
    "_initPropertyList_TensorOpts" := TENSOR_PROPERTIES,
    "_initPropertyList_MeshOpts" := MESH_PROPERTIES,
    "_init3DPropertyList_MeshOpts" := MESH_3D_PROPERTIES,
    "_initPropertyList_GiftiOpts" := [],
    "_init3DPropertyList_GiftiOpts" := [],
    "_initPropertyList_LabelOpts" := LABEL_PROPERTIES,
    "_initPropertyList_SHOpts" := SH_PROPERTIES
  ]

  const DISPLAY_SPECS: map<Prop, Spec> := map[
    Name := Plain(Name), OverlayType := Plain(OverlayType), Enabled := Plain(Enabled),
    Alpha := Plain(Alpha), Brightness := Plain(Brightness), Contrast := Plain(Contrast)
  ]

  const COLOUR_MAP_SPECS: map<Prop, Spec> := map[
    CustomCmap := Built(ColourMapOpts_ColourMapWidget),
    CustomOverrideDataRange := Built(VolumeOpts_OverrideDataRangeWidget),
    Cmap := Plain(Cmap),
    UseNegativeCmap := Plain(UseNegativeCmap),
    NegativeCmap := When(NegativeCmap, [UseNegativeCmap], DepTruthy),
    CmapResolution := Plain(CmapResolution),
    InterpolateCmaps := Plain(InterpolateCmaps),
    Invert := Plain(Invert),
    InvertClipping := Plain(InvertClipping),
    LinkLowRanges := Plain(LinkLowRanges),
    LinkHighRanges := Plain(LinkHighRanges),
    DisplayRange := Plain(DisplayRange),
    ClippingRange := Plain(ClippingRange)
  ]

  const VOLUME_SPECS: map<Prop, Spec> := map[
    Volume := When(Volume, [], Is4DImage),
    Interpolation := Plain(Interpolation),
    ClipImage := Plain(ClipImage),
    CustomOverrideDataRange := Built(VolumeOpts_OverrideDataRangeWidget),
    EnableOverrideDataRange := Plain(EnableOverrideDataRange),
    OverrideDataRange := When(OverrideDataRange, [EnableOverrideDataRange], DepTruthy)
  ]

  const VOLUME_3D_SPECS: map<Prop, Spec> := map[
    Dithering := Plain(Dithering), NumSteps := Plain(NumSteps), NumClipPlanes := Plain(NumClipPlanes)
  ]

  const MASK_SPECS: map<Prop, Spec> := map[
    Volume := When(Volume, [], Is4DImage),
    Colour := Plain(Colour), Invert := Plain(Invert), Threshold := Plain(Threshold)
  ]

  const LABEL_SPECS: map<Prop, Spec> := map[
    Lut := Plain(Lut), Outline := Plain(Outline), OutlineWidth := Plain(OutlineWidth),
    Volume := When(Volume, [], Is4DImage)
  ]

  const VECTOR_SPECS: map<Prop, Spec> := map[
    ColourImage := Plain(ColourImage),
    ModulateImage := When(ModulateImage, [ColourImage], DepIsNone),
    ClipImage := Plain(ClipImage),
    Cmap := When(Cmap, [ColourImage], DepNotNone),
    ClippingRange := When(ClippingRange, [ClipImage], DepNotNone),
    ModulateRange := When(ModulateRange, [ColourImage, ModulateImage], NoneThenNotNone),
    XColour := When(XColour, [ColourImage], DepIsNone),
    YColour := When(YColour, [ColourImage], DepIsNone),
    ZColour := When(ZColour, [ColourImage], DepIsNone),
    SuppressX := When(SuppressX, [ColourImage], DepIsNone),
    SuppressY := When(SuppressY, [ColourImage], DepIsNone),
    SuppressZ := When(SuppressZ, [ColourImage], DepIsNone),
    SuppressMode := When(SuppressMode, [ColourImage], DepIsNone)
  ]

  const RGB_VECTOR_SPECS: map<Prop, Spec> := map[Interpolation := Plain(Interpolation)]

  const LINE_VECTOR_SPECS: map<Prop, Spec> := map[
    Directed := Plain(Directed), UnitLength := Plain(UnitLength), OrientFlip := Plain(OrientFlip),
    LineWidth := Plain(LineWidth), LengthScale := Plain(LengthScale)
  ]

  const TENSOR_SPECS: map<Prop, Spec> := map[
    Lighting := Plain(Lighting), OrientFlip := Plain(OrientFlip),
    TensorResolution := Plain(TensorResolution), TensorScale := Plain(TensorScale)
  ]

  const SH_SPECS: map<Prop, Spec> := map[
    ShResolution := Plain(ShResolution),
    ShOrder := Plain(ShOrder),
    OrientFlip := Plain(OrientFlip),
    Lighting := Plain(Lighting),
    Size := Plain(Size),
    RadiusThreshold := Plain(RadiusThreshold),
    ColourMode := When(ColourMode, [ColourImage], DepIsNone),
    Cmap := When(Cmap, [ColourImage, ColourMode], NotNoneOrText("radius")),
    XColour := When(XColour, [ColourImage, ColourMode], NoneAndText("direction")),
    YColour := When(YColour, [ColourImage, ColourMode], NoneAndText("direction")),
    ZColour := When(ZColour, [ColourImage, ColourMode], NoneAndText("direction")),
    SuppressX := When(SuppressX, [ColourImage, ColourMode], NoneAndText("direction")),
    SuppressY := When(SuppressY, [ColourImage, ColourMode], NoneAndText("direction")),
    SuppressZ := When(SuppressZ, [ColourImage, ColourMode], NoneAndText("direction")),
    SuppressMode := When(SuppressMode, [ColourImage, ColourMode], NoneAndText("direction"))
  ]

  /** The dependencies of the mesh colour widgets (`colourKwargs`). */
  const MESH_COLOUR_DEPS: seq<Prop> := [VertexData, Outline, UseLut]

  const MESH_SPECS: map<Prop, Spec> := map[
    Outline := Plain(Outline),
    OutlineWidth := When(OutlineWidth, [Outline], DepTruthy),
    RefImage := Plain(RefImage),
    CoordSpace := When(CoordSpace, [RefImage], DepNotText("none")),
    Colour := Plain(Colour),
    CustomVertexData := Built(MeshOpts_VertexDataWidget),
    VertexData := Plain(VertexData),
    VertexDataIndex := When(VertexDataIndex, [VertexData], DepNotNone),
    UseLut := When(UseLut, [Outline], DepTruthy),
    CustomLut := Built(MeshOpts_LutWidget),
    Lut := When(Lut, [Outline], DepTruthy),
    Cmap := When(Cmap, MESH_COLOUR_DEPS, MeshColourRule),
    UseNegativeCmap := When(UseNegativeCmap, MESH_COLOUR_DEPS, MeshColourRule),
    NegativeCmap := When(NegativeCmap, MESH_COLOUR_DEPS, MeshColourRule),
    CmapResolution := When(CmapResolution, MESH_COLOUR_DEPS, MeshColourRule),
    InterpolateCmaps := When(InterpolateCmaps, MESH_COLOUR_DEPS, MeshColourRule),
    Invert := When(Invert, MESH_COLOUR_DEPS, MeshColourRule),
    InvertClipping := When(InvertClipping, MESH_COLOUR_DEPS, MeshColourRule),
    LinkLowRanges := When(LinkLowRanges, MESH_COLOUR_DEPS, MeshColourRule),
    LinkHighRanges := When(LinkHighRanges, MESH_COLOUR_DEPS, MeshColourRule),
    DisplayRange := When(DisplayRange, MESH_COLOUR_DEPS, MeshColourRule),
    ClippingRange := When(ClippingRange, [VertexData, Outline], NotNoneAndTruthy),
    DiscardClipped := When(DiscardClipped, MESH_COLOUR_DEPS, MeshColourRule)
  ]

  const MESH_3D_SPECS: map<Prop, Spec> := map[Wireframe := Plain(Wireframe), Lighting := Plain(Lighting)]

  /** The module's `_initWidgetSpec_*` and `_init3DWidgetSpec_*` functions, by name,
      with what each returns. */
  const WIDGET_SPEC_FUNCS: map<string, map<Prop, Spec>> := map[
    "_initWidgetSpec_Display" := DISPLAY_SPECS,
    "_initWidgetSpec_ColourMapOpts" := COLOUR_MAP_SPECS,
    "_initWidgetSpec_VolumeOpts" := VOLUME_SPECS,
    "_init3DWidgetSpec_VolumeOpts" := VOLUME_3D_SPECS,
    "_initWidgetSpec_MaskOpts" := MASK_SPECS,
    "_initWidgetSpec_LabelOpts" := LABEL_SPECS,
    "_initWidgetSpec_VectorOpts" := VECTOR_SPECS,
    "_initWidgetSpec_RGBVectorOpts" := RGB_VECTOR_SPECS,
    "_initWidgetSpec_LineVectorOpts" := LINE_VECTOR_SPECS,
    "_initWidgetSpec_TensorOpts" := TENSOR_SPECS,
    "_initWidgetSpec_SHOpts" := SH_SPECS,
    "_initWidgetSpec_MeshOpts" := MESH_SPECS,
    "_init3DWidgetSpec_MeshOpts" := MESH_3D_SPECS,
    "_initWidgetSpec_GiftiOpts" := map[],
    "_init3DWidgetSpec_GiftiOpts" := map[]
  ]

  // Properties of the enabledWhen rules.

  /** The `volume` widget of volume, mask and label images is enabled exactly for 4D
      images. */
  lemma VolumeEnabledFor4D(is4D: bool, env: Prop -> Value)
    ensures IsEnabled(VOLUME_SPECS[Volume], is4D, env) <==> is4D
    ensures IsEnabled(MASK_SPECS[Volume], is4D, env) <==> is4D
    ensures IsEnabled(LABEL_SPECS[Volume], is4D, env) <==> is4D
  {
  }

  /** The per-axis colour and suppression widgets of a vector image. */
  predicate VectorAxisProp(p: Prop)
  {
    p == XColour || p == YColour || p == ZColour || p == SuppressX || p == SuppressY ||
    p == SuppressZ || p == SuppressMode
  }

  /** Vector images: `cmap` is enabled iff a colour image is set, the per-axis widgets
      iff none is, so the two are never enabled together. */
  lemma VectorColourRules(is4D: bool, env: Prop -> Value, p: Prop)
    requires VectorAxisProp(p)
    ensures IsEnabled(VECTOR_SPECS[Cmap], is4D, env) <==> env(ColourImage) != NoneVal
    ensures IsEnabled(VECTOR_SPECS[p], is4D, env) <==> env(ColourImage) == NoneVal
    ensures !(IsEnabled(VECTOR_SPECS[Cmap], is4D, env) && IsEnabled(VECTOR_SPECS[p], is4D, env))
  {
    VectorAxisEntry(p);
  }

  /** Vector images: `modulateImage` needs no colour image, `modulateRange` also needs a
      modulation image, and `clippingRange` needs a clipping image. */
  lemma VectorModulateRules(is4D: bool, env: Prop -> Value)
    ensures IsEnabled(VECTOR_SPECS[ModulateImage], is4D, env) <==> env(ColourImage) == NoneVal
    ensures IsEnabled(VECTOR_SPECS[ModulateRange], is4D, env) <==>
              env(ColourImage) == NoneVal && env(ModulateImage) != NoneVal
    ensures IsEnabled(VECTOR_SPECS[ClippingRange], is4D, env) <==> env(ClipImage) != NoneVal
  {
  }

  lemma VectorAxisEntry(p: Prop)
    requires VectorAxisProp(p)
    ensures VECTOR_SPECS[p] == When(p, [ColourImage], DepIsNone)
  {
  }

  /** The per-axis widgets of an SH image. */
  predicate SHAxisProp(p: Prop)
  {
    p == XColour || p == YColour || p == ZColour || p == SuppressX || p == SuppressY ||
    p == SuppressZ || p == SuppressMode
  }

  /** SH images: `cmap` is enabled iff a colour image is set or the colour mode is
      `radius`; the per-axis widgets iff no colour image is set and the mode is
      `direction`; never both. */
  lemma SHColourRules(is4D: bool, env: Prop -> Value, p: Prop)
    requires SHAxisProp(p)
    ensures IsEnabled(SH_SPECS[Cmap], is4D, env) <==>
              env(ColourImage) != NoneVal || env(ColourMode) == TextVal("radius")
    ensures IsEnabled(SH_SPECS[p], is4D, env) <==>
              env(ColourImage) == NoneVal && env(ColourMode) == TextVal("direction")
    ensures !(IsEnabled(SH_SPECS[Cmap], is4D, env) && IsEnabled(SH_SPECS[p], is4D, env))
  {
    assert TextVal("radius") != TextVal("direction") by {
      assert "radius"[0] != "direction"[0];
    }
    SHAxisEntry(p);
  }

  lemma SHAxisEntry(p: Prop)
    requires SHAxisProp(p)
    ensures SH_SPECS[p] == When(p, [ColourImage, ColourMode], NoneAndText("direction"))
  {
  }

  /** SH images: the colour mode can be chosen only without a colour image. */
  lemma SHColourModeRule(is4D: bool, env: Prop -> Value)
    ensures IsEnabled(SH_SPECS[ColourMode], is4D, env) <==> env(ColourImage) == NoneVal
  {
  }

  /** The mesh widgets that share `colourKwargs`. */
  predicate MeshColourProp(p: Prop)
  {
    p == Cmap || p == UseNegativeCmap || p == NegativeCmap || p == CmapResolution ||
    p == InterpolateCmaps || p == Invert || p == InvertClipping || p == LinkLowRanges ||
    p == LinkHighRanges || p == DisplayRange || p == DiscardClipped
  }

  /** Meshes: the colour widgets are enabled iff the outline is shown, vertex data is
      loaded and no lookup table is used. */
  lemma MeshColourRules(is4D: bool, env: Prop -> Value, p: Prop)
    requires MeshColourProp(p)
    ensures IsEnabled(MESH_SPECS[p], is4D, env) <==>
              Truthy(env(Outline)) && env(VertexData) != NoneVal && !Truthy(env(UseLut))
  {
    MeshColourEntry(p);
  }

  /** Meshes: `clippingRange` is enabled iff vertex data is loaded and the outline is
      shown, `vertexDataIndex` iff vertex data is loaded, `lut` iff the outline is shown. */
  lemma MeshRangeRules(is4D: bool, env: Prop -> Value)
    ensures IsEnabled(MESH_SPECS[ClippingRange], is4D, env) <==>
              env(VertexData) != NoneVal && Truthy(env(Outline))
    ensures IsEnabled(MESH_SPECS[VertexDataIndex], is4D, env) <==> env(VertexData) != NoneVal
    ensures IsEnabled(MESH_SPECS[Lut], is4D, env) <==> Truthy(env(Outline))
  {
  }

  lemma MeshColourEntry(p: Prop)
    requires MeshColourProp(p)
    ensures MESH_SPECS[p] == When(p, MESH_COLOUR_DEPS, MeshColourRule)
  {
  }

  /** The mesh `coordSpace` rule compares the reference image with the text `'none'`, so
      with no reference image (`None`) the widget is still enabled. */
  lemma MeshCoordSpaceRule(is4D: bool, env: Prop -> Value)
    ensures IsEnabled(MESH_SPECS[CoordSpace], is4D, env) <==> env(RefImage) != TextVal("none")
    ensures env(RefImage) == NoneVal ==> IsEnabled(MESH_SPECS[CoordSpace], is4D, env)
  {
  }

  /** The mesh table redefines `cmap` with its own rule, but which definition the panel
      gets depends on the hit order: the dictionary that comes later wins. */
  lemma MeshCmapPrecedence()
    ensures MergeAll([COLOUR_MAP_SPECS, MESH_SPECS])[Cmap] == MESH_SPECS[Cmap]
    ensures MergeAll([MESH_SPECS, COLOUR_MAP_SPECS])[Cmap] == COLOUR_MAP_SPECS[Cmap]
    ensures MESH_SPECS[Cmap] != COLOUR_MAP_SPECS[Cmap]
  {
    MergeAllLastWins([COLOUR_MAP_SPECS, MESH_SPECS], Cmap);
    MergeAllLastWins([MESH_SPECS, COLOUR_MAP_SPECS], Cmap);
  }

  const PROPERTY_LIST_PREFIX: string := "_initPropertyList_"
  const PROPERTY_LIST_3D_PREFIX: string := "_init3DPropertyList_"
  const WIDGET_SPEC_PREFIX: string := "_initWidgetSpec_"
  const WIDGET_SPEC_3D_PREFIX: string := "_init3DWidgetSpec_"

  // ---------------------------------------------------------------------------------
  // The four public getters
  // ---------------------------------------------------------------------------------

  /** `getPropertyList(target)`; `order` is the hit order of the cache lookup. */
  method GetPropertyList(cache: ThingCache<seq<Prop>>, target: Target, order: seq<string>)
    returns (r: seq<Prop>)
    modifies cache
    ensures TypeOf(target).name in old(cache.things) ==> cache.things == old(cache.things)
    ensures TypeOf(target).name !in old(cache.things) ==>
              cache.things == Fill(old(cache.things), PROPERTY_LIST_FUNCS, PROPERTY_LIST_PREFIX,
                                   InitKeys(PROPERTY_LIST_FUNCS, PROPERTY_LIST_PREFIX, TypeOf(target)))
    ensures r == PropertyList(Hits(cache.things, order))
  {
    var plist := cache.GetThing(target, PROPERTY_LIST_PREFIX, PROPERTY_LIST_FUNCS, order);
    r := PropertyList(plist);
  }

  /** `get3DPropertyList(target)` */
  method Get3DPropertyList(cache: ThingCache<seq<Prop>>, target: Target, order: seq<string>)
    returns (r: seq<Prop>)
    modifies cache
    ensures TypeOf(target).name in old(cache.things) ==> cache.things == old(cache.things)
    ensures TypeOf(target).name !in old(cache.things) ==>
              cache.things == Fill(old(cache.things), PROPERTY_LIST_FUNCS, PROPERTY_LIST_3D_PREFIX,
                                   InitKeys(PROPERTY_LIST_FUNCS, PROPERTY_LIST_3D_PREFIX, TypeOf(target)))
    ensures r == PropertyList(Hits(cache.things, order))
  {
    var plist := cache.GetThing(target, PROPERTY_LIST_3D_PREFIX, PROPERTY_LIST_FUNCS, order);
    r := PropertyList(plist);
  }

  /** `getWidgetSpecs(target)` */
  method GetWidgetSpecs(cache: ThingCache<map<Prop, Spec>>, target: Target, order: seq<string>)
    returns (r: map<Prop, Spec>)
    modifies cache
    ensures TypeOf(target).name in old(cache.things) ==> cache.things == old(cache.things)
    ensures TypeOf(target).name !in old(cache.things) ==>
              cache.things == Fill(old(cache.things), WIDGET_SPEC_FUNCS, WIDGET_SPEC_PREFIX,
                                   InitKeys(WIDGET_SPEC_FUNCS, WIDGET_SPEC_PREFIX, TypeOf(target)))
    ensures r == WidgetSpecDict(Hits(cache.things, order))
  {
    var sdicts := cache.GetThing(target, WIDGET_SPEC_PREFIX, WIDGET_SPEC_FUNCS, order);
    r := WidgetSpecDict(sdicts);
  }

  /** `get3DWidgetSpecs(target)` */
  method Get3DWidgetSpecs(cache: ThingCache<map<Prop, Spec>>, target: Target, order: seq<string>)
    returns (r: map<Prop, Spec>)
    modifies cache
    ensures TypeOf(target).name in old(cache.things) ==> cache.things == old(cache.things)
    ensures TypeOf(target).name !in old(cache.things) ==>
              cache.things == Fill(old(cache.things), WIDGET_SPEC_FUNCS, WIDGET_SPEC_3D_PREFIX,
                                   InitKeys(WIDGET_SPEC_FUNCS, WIDGET_SPEC_3D_PREFIX, TypeOf(target)))
    ensures r == WidgetSpecDict(Hits(cache.things, order))
  {
    var sdicts := cache.GetThing(target, WIDGET_SPEC_3D_PREFIX, WIDGET_SPEC_FUNCS, order);
    r := WidgetSpecDict(sdicts);
  }
}
