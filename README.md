# FSLeyes rule and lookup logic in Dafny

FSLeyes is the FSL image viewer. Most of it is GUI and OpenGL code, but a handful of its
pieces are plain rules and lookups, and those are what this project models and proves
things about. It has one module per source file, plus two support modules:

- **Version** (`version.dfy`, from `fsleyes/version.py`): `parseVersionString` reads a
  `major.minor.point[hotfix]` string into a 4-tuple, and `compareVersions` orders two
  versions lexicographically. The docstring of `compareVersions` says `0` for a newer
  `v1`, but the code returns `1`. The model returns `1`, like the code.
- **DisplayContext** (`displaycontext.dfy`, from `fsleyes/displaycontext/__init__.py`):
  - the static tables `OVERLAY_TYPES`, `ALL_OVERLAY_TYPES` and `DISPLAY_OPTS_MAP`;
  - `getOverlayTypes`, which filters and reorders a copy of a class's candidate display
    types by image shape and NIFTI intent, using in-place `remove` and `insert`.
- **OverlayDisplayWidgets** (`widgets.dfy`, from
  `fsleyes/controls/overlaydisplaywidgets.py`), the settings registry:
  - `_getInitFuncs` walks the class hierarchy depth first for initialiser functions
    named after each class;
  - `_getThing` memoises their results per class in a cache;
  - `getPropertyList` concatenates the hits and `getWidgetSpecs` folds them with
    `_merge_dicts`;
  - the `enabledWhen` rules of the widget tables, one constructor per distinct lambda.
- **OverlayDisplayPanel** (`panel.dfy`, from `fsleyes/controls/overlaydisplaypanel.py`):
  - `updateWidgets` assembles the container, label, tooltip and widget lists for one
    group and adds the rows;
  - `__selectedOverlayChanged` chooses and rebuilds the groups;
  - `__ovlTypeChanged` rebuilds the `opts` group.

  The widget list and `props.buildGUI` come from other libraries. They are represented
  by two small classes (`WidgetList`, `GuiBuilder`), and a spec's builder function is an
  opaque function parameter.
- **ParseArgs** (`parseargs.dfy`, from `fsleyes/parseargs.py`):
  - exact-match option lookup (`_get_option_tuples`);
  - the `ARGUMENTS` table, its collision rules and the sets of flags that expect a value;
  - the scan that finds overlay files in `argv` and splits `argv` into blocks;
  - `_imageTrans`, `_lutTrans`, and `TRANSFORMS` built from its literal part and `FILE_OPTIONS`;
  - `_configParser`;
  - the property-name filtering of `_setupOverlayParsers`.
- **Profiles** (`profiles.dfy`, from `fsleyes/profiles/__init__.py`):
  - `ProfileManager`, whose `changeProfile` replaces the current profile;
  - `Profile`, which builds its temporary-mode and alternate-handler tables over its
    method resolution order, finds handlers (`__getTempMode`, `__getHandler`,
    `__getMouseButton`), dispatches events (`handleEvent`) and keeps the mouse
    bookkeeping of press, release, move and drag;
  - `PlotPanelEventManager` with its table of `matplotlib` connection ids.
- **Shaders** (`shaders.dfy`, from `fsleyes/gl/shaders/__init__.py`): `_getFileName`,
  `getVertexShader`, `getFragmentShader` and `preprocess`, which substitutes
  `#pragma include` lines. File contents are a map from path to text.
- **Wrappers** (`wrappers.dfy`): `Option`, `Result` and the Python exception kinds the
  model raises.
- **PyText** (`pytext.dfy`): the Python `str` and `int` behaviour the code relies on.
  That covers `strip`, `split`, `join`, `isdigit`, `lower` (ASCII) and `int()` on
  ASCII digits.

Where the source updates state, so does the model: `ThingCache`, `WidgetList`, `Panel`,
`Profile`, `ProfileManager` and `PlotPanelEventManager` are classes with `modifies`
clauses. Each loop of the source is a `while` or `for` loop proved against a
specification function, for example:

- `GetInitFuncs` against `InitKeys`;
- `RunProperties` against `Assemble`;
- `ScanOverlays` against `Scan`;
- `CollectIncludes` against `IncludesFrom`;
- `ReadIncludes` against `Applied`.

The properties are proved about those functions. Dependencies on the outside world are
parameters. That covers the `TypeDict` hit order, file existence, data-source type
guessing, builder functions, `mpl_connect` ids, the OpenGL version and file contents.

Two behaviours of the source stand out:

- `__ovlTypeChanged` stores the rebuilt `opts` widgets under the opts object rather than
  under `'opts'` (see Findings).
- `PlotPanelEventManager.register` keeps only the ids of the last target. With several
  targets, `deregister` therefore disconnects the last target's ids on every target. The
  model keeps this behaviour: `ConnectedLast` states it.

## Model

| member | source | states |
|---|---|---|
| PyText.JoinSplit | fsleyes/gl/shaders/__init__.py:112-135 | `sep.join(s.split(sep)) == s` |
| PyText.SplitJoin | fsleyes/gl/shaders/__init__.py:112-135 | splitting a join of separator-free pieces gives the pieces back |
| PyText.SplitPiecesFree | fsleyes/gl/shaders/__init__.py:112 | no piece of a split holds the separator |
| PyText.ParseInt | fsleyes/version.py:49-50 | `int()` fails only with `ValueError` |
| PyText.DigitStringParses | fsleyes/version.py:56-58 | `int()` of an all-digit string is its decimal value |
| PyText.ParseNatToString | fsleyes/version.py:17-27 | `int()` reads back the decimal text of every natural number |
| Version.ParseVersionString | fsleyes/version.py:35-63 | a parsed version has at least three period-separated components, and its major and minor are `int()` of the first two |
| Version.ParsePoint | fsleyes/version.py:56-61 | a non-zero hot-fix only comes from a third component that fails `isdigit()`, and is the code of its last character |
| Version.CompareSeq | fsleyes/version.py:79-84 | the zip loop answers -1, 0 or 1 |
| Version.CompareVersions | fsleyes/version.py:66-84 | an answer means both strings parsed, and it is -1, 0 or 1 |
| Version.CompareIsLexicographic | fsleyes/version.py:79-84 | 1 exactly when the first tuple is lexicographically newer, -1 exactly when older, 0 exactly when equal |
| Version.CompareReflexive | fsleyes/version.py:79-84 | a tuple compares equal to itself |
| Version.CompareAntisymmetric | fsleyes/version.py:79-82 | swapping the tuples negates the answer |
| Version.CompareTransitive | fsleyes/version.py:79-82 | newer-than is transitive |
| Version.CompareVersionsReflexive | fsleyes/version.py:76-84 | `compareVersions(v, v) == 0` for every parseable `v` |
| Version.CompareVersionsAntisymmetric | fsleyes/version.py:76-82 | swapping the strings negates the answer, and 1 means the first is newer |
| Version.ParseIgnoresExtra | fsleyes/version.py:43-50 | components after the third do not change the parse |
| Version.ParseNeedsThree | fsleyes/version.py:49-50 | fewer than three components is an error |
| Version.ParseBadMajorMinor | fsleyes/version.py:49 | a non-integer major or minor raises `ValueError` |
| Version.ParseNumericPoint | fsleyes/version.py:56-58 | an all-digit third component gives that number as point and hot-fix 0 |
| Version.ParseHotfixPoint | fsleyes/version.py:59-61 | otherwise the hot-fix is the last character's code and the point is `int()` of the rest |
| Version.ParseEmptyPoint | fsleyes/version.py:59-60 | an empty third component raises `IndexError` at `point[-1]` |
| Version.FormatSplits | fsleyes/version.py:17-27 | a version in the documented layout splits into its three formatted numbers |
| Version.ParsePointFormat | fsleyes/version.py:56-61 | a formatted point release, with or without its hot-fix letter, reads back as its number and letter code |
| Version.ParseFormat | fsleyes/version.py:17-27 | parsing a formatted version gives back its numbers and the hot-fix letter's code (0 without one) |
| Version.ParseExample | fsleyes/version.py:17 | `'0.9.13'` parses as `(0, 9, 13, 0)` |
| Version.HotfixIsNewer | fsleyes/version.py:59-61 | `'0.9.13a'` is newer than `'0.9.13'` |
| DisplayContext.AllOverlayTypes | fsleyes/displaycontext/__init__.py:179 | `ALL_OVERLAY_TYPES` holds no type twice |
| DisplayContext.AllOverlayTypesExact | fsleyes/displaycontext/__init__.py:163-179 | a type is in `ALL_OVERLAY_TYPES` exactly when some class's `OVERLAY_TYPES` entry offers it |
| DisplayContext.DisplayOptsCoverAllTypes | fsleyes/displaycontext/__init__.py:179-195 | the keys of `DISPLAY_OPTS_MAP` are exactly the types in `ALL_OVERLAY_TYPES` |
| DisplayContext.ListRemove | fsleyes/displaycontext/__init__.py:232-233 | `list.remove(x)` raises `ValueError` exactly when `x` is absent, and otherwise drops its first occurrence |
| DisplayContext.RemoveFirstCount | fsleyes/displaycontext/__init__.py:240-252 | a removal takes away one copy of the value and leaves every other element |
| DisplayContext.ListRemoveLength | fsleyes/displaycontext/__init__.py:232-233 | a successful `remove` shortens the list by one |
| DisplayContext.TryRemove | fsleyes/displaycontext/__init__.py:240-252 | `try: remove(x) except ValueError: pass` leaves the list unchanged when `x` is absent and otherwise drops its first occurrence |
| DisplayContext.RemoveFirstIsFilter | fsleyes/displaycontext/__init__.py:240-252 | on a list without duplicates a removal is filtering the value out |
| DisplayContext.FilterOutMembers | fsleyes/displaycontext/__init__.py:211-254 | the filtered list keeps exactly the elements outside the removed set |
| DisplayContext.ExcludedTypes | fsleyes/displaycontext/__init__.py:219-252 | `volume` is never excluded; the vector types are excluded exactly unless the shape is 4D ending in 3, `sh` unless 4D ending in an SH coefficient count, `tensor` unless 4D ending in 6 |
| DisplayContext.GetOverlayTypes | fsleyes/displaycontext/__init__.py:202-254 | `KeyError` exactly when the overlay's own class name has no entry; a non-image gets a copy of its entry; an image gets the reference selection |
| DisplayContext.ApplyVectorCases | fsleyes/displaycontext/__init__.py:230-244 | after the vector cases the list is the moved front (for an RGB-vector image) followed by the table order without the removed types |
| DisplayContext.MoveVectorsToFront | fsleyes/displaycontext/__init__.py:231-235 | removing both vector types and inserting them at 0 gives `['rgbvector', 'linevector']` followed by the rest in table order |
| DisplayContext.DropVectors | fsleyes/displaycontext/__init__.py:238-244 | the guarded removals filter both vector types out |
| DisplayContext.RemoveTwiceIsFilter | fsleyes/displaycontext/__init__.py:232-233 | two removals on a duplicate-free list filter both values out, and the first leaves the second in place |
| DisplayContext.ApplyShapeCases | fsleyes/displaycontext/__init__.py:246-252 | the SH and tensor cases filter out exactly the types the shape rules out, keeping the front |
| DisplayContext.ImageSelectionMembers | fsleyes/displaycontext/__init__.py:211-254 | an image is offered exactly the entry's types its shape does not rule out: `volume` always, the vector types iff 4D ending in 3, `tensor` iff 4D ending in 6, `sh` iff 4D ending in an SH coefficient count |
| DisplayContext.ImageSelectionDistinct | fsleyes/displaycontext/__init__.py:211-254 | the selection never repeats a type |
| DisplayContext.ImageSelectionDefault | fsleyes/displaycontext/__init__.py:174-175 | the default (first) type is `rgbvector` for a 4D, last-dimension-3 image with the RGB-vector intent and `volume` for every other image |
| OverlayDisplayWidgets.GetInitFuncs | fsleyes/controls/overlaydisplaywidgets.py:95-119 | the keys are exactly the reference walk (none without an initialiser, else the class name followed by each base's keys in declaration order) and the functions are aligned with them |
| OverlayDisplayWidgets.InitKeysRegistered | fsleyes/controls/overlaydisplaywidgets.py:103-117 | every walked key has an initialiser named `prefix + key` |
| OverlayDisplayWidgets.InitKeysHead | fsleyes/controls/overlaydisplaywidgets.py:103-119 | a class without an initialiser yields no keys, without visiting its bases; otherwise its own name leads, followed by the bases' keys |
| OverlayDisplayWidgets.FillContents | fsleyes/controls/overlaydisplaywidgets.py:89-90 | after the fill loop every walked key maps to its initialiser's result and every other cached key is untouched |
| OverlayDisplayWidgets.Hits | fsleyes/controls/overlaydisplaywidgets.py:92 | a lookup with hits returns at least one value |
| OverlayDisplayWidgets.HitsMembers | fsleyes/controls/overlaydisplaywidgets.py:92 | no hit exactly when none of the tried keys is cached, and the hits are exactly the cached values of the tried keys |
| OverlayDisplayWidgets.ThingCache.GetThing | fsleyes/controls/overlaydisplaywidgets.py:83-92 | the cache is left alone when the target's class is cached, otherwise it is filled from the walk; the answer is the lookup on the new cache |
| OverlayDisplayWidgets.GetThingFills | fsleyes/controls/overlaydisplaywidgets.py:85-90 | after a fill the cache holds exactly the old keys plus the walked ones, each walked class maps to its initialiser's result, the target's class is cached iff it has an initialiser, other keys are unchanged |
| OverlayDisplayWidgets.MergeDicts | fsleyes/controls/overlaydisplaywidgets.py:77-80 | the merged keys are the union, `d2` wins on a shared key, `d1` supplies the rest |
| OverlayDisplayWidgets.MergeAllLastWins | fsleyes/controls/overlaydisplaywidgets.py:64 | the fold has exactly the keys of all hits, and each key's value is that of the last hit holding it |
| OverlayDisplayWidgets.PropertyListMembers | fsleyes/controls/overlaydisplaywidgets.py:37-54 | `[]` when nothing is registered; otherwise a property is listed exactly when some hit lists it |
| OverlayDisplayWidgets.VolumeEnabledFor4D | fsleyes/controls/overlaydisplaywidgets.py:304-307 | the `volume` widget of volume, mask and label images is enabled exactly for a 4D image |
| OverlayDisplayWidgets.VectorColourRules | fsleyes/controls/overlaydisplaywidgets.py:375-424 | vector `cmap` is enabled iff a colour image is set, each per-axis colour or suppress widget iff none is, and never both |
| OverlayDisplayWidgets.VectorModulateRules | fsleyes/controls/overlaydisplaywidgets.py:369-395 | `modulateImage` iff no colour image, `modulateRange` iff no colour image and a modulation image, `clippingRange` iff a clipping image |
| OverlayDisplayWidgets.VectorAxisEntry | fsleyes/controls/overlaydisplaywidgets.py:396-424 | each per-axis vector widget depends on `colourImage` with the is-None rule |
| OverlayDisplayWidgets.SHColourRules | fsleyes/controls/overlaydisplaywidgets.py:484-516 | SH `cmap` iff a colour image or colour mode `'radius'`, each per-axis widget iff no colour image and mode `'direction'`, never both |
| OverlayDisplayWidgets.SHAxisEntry | fsleyes/controls/overlaydisplaywidgets.py:489-516 | each per-axis SH widget depends on `colourImage` and `colourMode` with the direction rule |
| OverlayDisplayWidgets.SHColourModeRule | fsleyes/controls/overlaydisplaywidgets.py:479-483 | `colourMode` is enabled iff there is no colour image |
| OverlayDisplayWidgets.MeshColourRules | fsleyes/controls/overlaydisplaywidgets.py:531-614 | each mesh colour widget is enabled iff outline and vertex data and not `useLut` |
| OverlayDisplayWidgets.MeshRangeRules | fsleyes/controls/overlaydisplaywidgets.py:555-622 | mesh `clippingRange` iff vertex data and outline; `vertexDataIndex` iff vertex data; `lut` iff outline |
| OverlayDisplayWidgets.MeshColourEntry | fsleyes/controls/overlaydisplaywidgets.py:534-614 | the mesh colour widgets share the `colourKwargs` dependencies and rule |
| OverlayDisplayWidgets.MeshCoordSpaceRule | fsleyes/controls/overlaydisplaywidgets.py:547-549 | `coordSpace` is enabled iff the reference image is not the text `'none'`, so also when it is None |
| OverlayDisplayWidgets.MeshCmapPrecedence | fsleyes/controls/overlaydisplaywidgets.py:64 | which of the two `cmap` definitions wins depends on the hit order alone |
| OverlayDisplayWidgets.GetPropertyList | fsleyes/controls/overlaydisplaywidgets.py:37-44 | the list is the concatenation of the cache's hits in lookup order (`[]` for none); a class already cached leaves the cache unchanged, and after a miss the cache gains the `_getInitFuncs` walk's keys, each holding its initialiser's result |
| OverlayDisplayWidgets.Get3DPropertyList | fsleyes/controls/overlaydisplaywidgets.py:47-54 | as `GetPropertyList`, on the 3D cache with the `_init3DPropertyList_` initialisers |
| OverlayDisplayWidgets.GetWidgetSpecs | fsleyes/controls/overlaydisplaywidgets.py:57-64 | the specs are the `_merge_dicts` fold of the cache's hits (`{}` for none); a class already cached leaves the cache unchanged, and after a miss the cache gains the walk's keys, each holding its initialiser's result |
| OverlayDisplayWidgets.Get3DWidgetSpecs | fsleyes/controls/overlaydisplaywidgets.py:67-74 | as `GetWidgetSpecs`, on the 3D cache with the `_init3DWidgetSpec_` initialisers |
| OverlayDisplayPanel.TextsOf | fsleyes/controls/overlaydisplaypanel.py:265-269 | one label or tooltip lookup per spec a builder returned, in spec order |
| OverlayDisplayPanel.PiecesOf | fsleyes/controls/overlaydisplaypanel.py:243-281 | every property contributes as many labels and tooltips as it adds containers and specs to build |
| OverlayDisplayPanel.RowsOf | fsleyes/controls/overlaydisplaypanel.py:285-294 | the rows are as many as the shortest of the container, label and tooltip lists, as `zip` gives |
| OverlayDisplayPanel.AssembleAligned | fsleyes/controls/overlaydisplaypanel.py:241-281 | after the property loop the container, label and tooltip lists have equal length, so `zip` drops nothing; the handle counter never goes back |
| OverlayDisplayPanel.StepDeclared | fsleyes/controls/overlaydisplaypanel.py:243-281 | a declarative spec adds one new widget to both the widget and container lists, with its property's label and tooltip |
| OverlayDisplayPanel.StepContainer | fsleyes/controls/overlaydisplaypanel.py:253-275 | a builder returning a container adds that container once and its widgets to the widget list, and builds nothing |
| OverlayDisplayPanel.StepSpecList | fsleyes/controls/overlaydisplaypanel.py:263-281 | a builder returning specs gets one new widget per spec, each with the label and tooltip of that spec's key |
| OverlayDisplayPanel.AssemblePrefix | fsleyes/controls/overlaydisplaypanel.py:241-281 | the lists after the first `k` properties are prefixes of the final lists: rows appear in property order |
| OverlayDisplayPanel.RowLabels | fsleyes/controls/overlaydisplaypanel.py:285-294 | row `i` shows container `i`, label `i` or `''` when there is none, and tooltip `i` |
| OverlayDisplayPanel.GroupNames | fsleyes/controls/overlaydisplaypanel.py:139-149 | the groups are `display` then `opts`, with `3d` added on a 3D view |
| OverlayDisplayPanel.GroupNamesDistinct | fsleyes/controls/overlaydisplaypanel.py:139-149 | the group names are distinct |
| OverlayDisplayPanel.RekeyAsWrittenKeepsStale | fsleyes/controls/overlaydisplaypanel.py:197 | as written, the `opts` entry keeps the old widget list and the dictionary gains a key for the opts object |
| OverlayDisplayPanel.RekeyReplaces | fsleyes/controls/overlaydisplaypanel.py:197 | corrected, the keys stay the same, `opts` holds the rebuilt list and every other entry is unchanged |
| OverlayDisplayPanel.TitleMapLookup | fsleyes/controls/overlaydisplaypanel.py:169-171 | with distinct names, each group has the title it was added with |
| OverlayDisplayPanel.ExpandMapLookup | fsleyes/controls/overlaydisplaypanel.py:169-173 | each group is expanded as `keepExpanded` says for its name |
| OverlayDisplayPanel.TitleMapKeys | fsleyes/controls/overlaydisplaypanel.py:167-171 | after clearing, the titled groups are exactly the added ones |
| OverlayDisplayPanel.ExpandMapKeys | fsleyes/controls/overlaydisplaypanel.py:167-173 | after clearing, the groups with an expansion state are exactly the added ones |
| OverlayDisplayPanel.TablesShown | fsleyes/controls/overlaydisplaypanel.py:153-173 | the titles and expansion states the group loop leaves are exactly one per group, with its title and the state kept from the previous overlay |
| OverlayDisplayPanel.ShowStep | fsleyes/controls/overlaydisplaypanel.py:169-172 | building one more group updates only its rows and `__widgets` entry, and continues the handle counter |
| OverlayDisplayPanel.ShowGroupsKeys | fsleyes/controls/overlaydisplaypanel.py:169-172 | after the group loop the rows and `__widgets` have one entry per group and no other |
| OverlayDisplayPanel.ShowGroupsLookup | fsleyes/controls/overlaydisplaypanel.py:169-172 | with distinct names, each group holds the rows and widgets `updateWidgets` assembles for its settings object, starting where the groups before it stopped |
| OverlayDisplayPanel.Panel.constructor | fsleyes/controls/overlaydisplaypanel.py:58-85 | the panel starts with nothing shown, then refreshes once: no selected overlay leaves groups, rows, titles and expansion states empty with no listener; a selected overlay whose groups all have specs is shown in full, every group expanded, listened to alone |
| OverlayDisplayPanel.WidgetList.Clear | fsleyes/controls/overlaydisplaypanel.py:167 | the widget list has no groups, titles, states or rows |
| OverlayDisplayPanel.WidgetList.AddGroup | fsleyes/controls/overlaydisplaypanel.py:171 | appends a titled, empty group and keeps the expansion states |
| OverlayDisplayPanel.WidgetList.Expand | fsleyes/controls/overlaydisplaypanel.py:173 | sets one group's expansion state and nothing else |
| OverlayDisplayPanel.WidgetList.AddWidget | fsleyes/controls/overlaydisplaypanel.py:290-294 | appends one row to the named group and nothing else |
| OverlayDisplayPanel.WidgetList.IsExpanded | fsleyes/controls/overlaydisplaypanel.py:162-163 | the expansion state of a known group; `KeyError` for an unknown one |
| OverlayDisplayPanel.WidgetList.RenameGroup | fsleyes/controls/overlaydisplaypanel.py:199 | retitles a known group and changes nothing else; `KeyError` for an unknown one |
| OverlayDisplayPanel.WidgetList.ClearGroup | fsleyes/controls/overlaydisplaypanel.py:228 | empties a known group's rows and changes nothing else; `KeyError` for an unknown one |
| OverlayDisplayPanel.GuiBuilder.BuildAll | fsleyes/controls/overlaydisplaypanel.py:276-277 | one new widget per spec, in spec order |
| OverlayDisplayPanel.SpecTexts | fsleyes/controls/overlaydisplaypanel.py:263-269 | the labels and tooltips looked up for each returned spec's key |
| OverlayDisplayPanel.PropertyPieces | fsleyes/controls/overlaydisplaypanel.py:243-275 | what one property contributes, as the `PiecesOf` specification says |
| OverlayDisplayPanel.Panel.AddProperty | fsleyes/controls/overlaydisplaypanel.py:241-281 | one pass of the property loop extends the lists as `Step` says |
| OverlayDisplayPanel.Panel.RunProperties | fsleyes/controls/overlaydisplaypanel.py:241-281 | `KeyError` iff some listed property has no spec; otherwise the lists are `Assemble` of all properties |
| OverlayDisplayPanel.Panel.AddRows | fsleyes/controls/overlaydisplaypanel.py:285-294 | the group's rows become `RowsOf` the lists; nothing else in the widget list changes |
| OverlayDisplayPanel.Panel.UpdateWidgets | fsleyes/controls/overlaydisplaypanel.py:208-298 | `KeyError` iff the group is unknown or a property lacks a spec; otherwise returns the new widgets, and the group's rows are rebuilt while the groups, titles and expansion states stay as they were |
| OverlayDisplayPanel.Panel.ReadExpanded | fsleyes/controls/overlaydisplaypanel.py:161-163 | every group's expansion state, or `KeyError` iff a group is unknown |
| OverlayDisplayPanel.Panel.KeepStates | fsleyes/controls/overlaydisplaypanel.py:153-163 | every group expanded when there was no previous overlay, otherwise the states the list had |
| OverlayDisplayPanel.Panel.BuildGroup | fsleyes/controls/overlaydisplaypanel.py:169-173 | the group is appended with its title; on success its rows are those `updateWidgets` assembles from the next free handle, it is expanded as asked and no other group's rows change; `KeyError` exactly when a property lacks a spec |
| OverlayDisplayPanel.Panel.AddGroup | fsleyes/controls/overlaydisplaypanel.py:169-173 | one turn of the group loop takes the group tables, rows, `__widgets` and handle counter from those of the first `i` groups (`ShowGroups`) to those of the first `i + 1` |
| OverlayDisplayPanel.Panel.BuildGroups | fsleyes/controls/overlaydisplaypanel.py:169-173 | after the loop the list holds exactly the groups, in order, with their titles and expansion states; rows, `__widgets` and the handle counter are `ShowGroups` of all groups; `KeyError` exactly when some group lacks a spec |
| OverlayDisplayPanel.Panel.ShowOverlay | fsleyes/controls/overlaydisplaypanel.py:134-173 | the listener moves to the new overlay; on success the panel `Shows` every group: rows and widgets as `ShowGroups` builds them, each title as given and each expansion as it was for the previous overlay; `KeyError` exactly for an unknown group state or a missing spec |
| OverlayDisplayPanel.Panel.RebuildGroups | fsleyes/controls/overlaydisplaypanel.py:167-173 | clearing the list and running the group loop leaves the panel showing the groups as `Shows` states, or `KeyError` exactly when some group lacks a spec |
| OverlayDisplayPanel.Panel.SelectedOverlayChanged | fsleyes/controls/overlaydisplaypanel.py:111-173 | no overlay clears the groups, rows, titles and expansion states and the widget record, builds nothing and keeps the listeners; the same overlay changes nothing; another overlay ends, on success, with the listener moved and the panel showing exactly the view's groups as `ShowOverlay` promises |
| OverlayDisplayPanel.Panel.OvlTypeChanged | fsleyes/controls/overlaydisplaypanel.py:187-205 | corrected: `opts` gets the rows and widgets assembled for the new opts and its title, then `3d` (when shown) those assembled from the handles after them; groups, expansion states and every other group's rows and widgets are unchanged; the error cases are exact |
| OverlayDisplayPanel.Panel.OvlTypeChangedAsWritten | fsleyes/controls/overlaydisplaypanel.py:187-205 | as written: the same rebuild, with the new `opts` widgets stored under the opts object, so the `opts` entry keeps the old widgets |
| ParseArgs.FirstIndex | fsleyes/parseargs.py:218 | the index of the first occurrence of the character, or the length when there is none |
| ParseArgs.SplitExplicitParts | fsleyes/parseargs.py:217-222 | `split('=', 1)`: the option part holds no `=`, an argument exists iff the string holds `=`, and option, `=` and argument rebuild the string |
| ParseArgs.LongMatchesExact | fsleyes/parseargs.py:216-227 | a `--` option matches exactly the registered strings equal to its text before `=`, with the text after it as argument: no prefix matching |
| ParseArgs.ShortMatchesExact | fsleyes/parseargs.py:232-246 | a single-dash option matches its first two characters (the rest as argument) or the whole string (no argument), and nothing else |
| ParseArgs.TwoCharOption | fsleyes/parseargs.py:232-246 | for a two-character option every match is the two-character branch, with argument `''` |
| ParseArgs.OptionTuplesErrors | fsleyes/parseargs.py:216-279 | an empty or one-prefix-character string fails with `IndexError`, one not starting with a prefix character with the parser's `ArgumentError`, and nothing else fails |
| ParseArgs.GetOptionTuples | fsleyes/parseargs.py:193-253 | the loop over the registered strings returns what the `OptionTuples` specification says |
| ParseArgs.ExpectFlagsMembers | fsleyes/parseargs.py:1545-1552 | a flag is collected exactly when some `ARGUMENTS` entry of that side expects a value and has it as short or long form |
| ParseArgs.BuildExpects | fsleyes/parseargs.py:1542-1552 | the main set is `argOpts` plus the forms of the main groups' value options; the overlay set the forms of all other value options |
| ParseArgs.MainSideUnique | fsleyes/parseargs.py:683-685 | no two of the main, `SceneOpts`, `OrthoOpts` and `LightBoxOpts` entries share a short or a long form |
| ParseArgs.DisplayUnique | fsleyes/parseargs.py:594-600 | no two `Display` entries share a form |
| ParseArgs.DisplayApart | fsleyes/parseargs.py:687-688 | no `DisplayOpts` entry, of any opts type, shares a form with a `Display` entry |
| ParseArgs.SidesMayCollide | fsleyes/parseargs.py:690-691 | the main and overlay sides do share forms: `-n` is both `noisy` and `Display.name` |
| ParseArgs.ArgumentSides | fsleyes/parseargs.py:543-673 | the entries before `Display` all belong to main groups and none after |
| ParseArgs.ExpectFlagsBySide | fsleyes/parseargs.py:1545-1552 | the main value flags of `ARGUMENTS` are those of its main side, the overlay value flags those of its overlay side |
| ParseArgs.ParserTypesTable | fsleyes/parseargs.py:1360-1403 | one parser per type, and the types that drop `volume` all get one |
| ParseArgs.ScanShape | fsleyes/parseargs.py:1559-1593 | the overlay indices increase, lie in the scanned range and come with the type guessed for each |
| ParseArgs.ScanExact | fsleyes/parseargs.py:1562-1593 | a position is an overlay exactly when its argument is not the value of a flag expecting one (main flags before the first overlay, overlay flags after it) and names an existing file |
| ParseArgs.ScanError | fsleyes/parseargs.py:1586-1588 | the scan fails only with `RuntimeError` |
| ParseArgs.OverlayNotFlagValue | fsleyes/parseargs.py:1567-1582 | the first overlay is checked against the main flags, every later one against the overlay flags, and each names an existing file |
| ParseArgs.ScanOverlays | fsleyes/parseargs.py:1559-1596 | the scan loop with the sentinel appended: one more index than types, increasing, ending at `len(argv)`; only `RuntimeError` |
| ParseArgs.StickyError | fsleyes/parseargs.py:1588 | once the scan has raised, scanning further raises the same error |
| ParseArgs.Blocks | fsleyes/parseargs.py:1648-1650 | one argument block per overlay |
| ParseArgs.FlattenBlocks | fsleyes/parseargs.py:1648-1650 | the overlay blocks together are `argv` from the first overlay on |
| ParseArgs.Partition | fsleyes/parseargs.py:1596-1653 | the main arguments followed by the blocks are `argv`, and every block starts with its overlay file |
| ParseArgs.ImageTransCases | fsleyes/parseargs.py:1054-1064 | `None` for no value or a value whose text is `none` in any case, `'world'` for `world`, the data source for another overlay; `AttributeError` exactly for other text |
| ParseArgs.ImageTransIgnoresCase | fsleyes/parseargs.py:1056-1061 | `NONE` and `World` are read as `none` and `world` |
| ParseArgs.TransformLaws | fsleyes/parseargs.py:1072-1099 | negation is an involution with no fixed point; `c[:3]` keeps at most three values, is a prefix and is idempotent |
| ParseArgs.LutTrans | fsleyes/parseargs.py:1067-1069 | a lookup table becomes its key; anything else is passed through |
| ParseArgs.TargetKeysMembers | fsleyes/parseargs.py:1108-1110 | one target's keys are exactly `target.option` for its file options |
| ParseArgs.AddFileTransforms | fsleyes/parseargs.py:1107-1110 | the nested loop computes `WithFileTransforms`: the table gains every file option key, each mapped to `_imageTrans`, and every other entry is kept |
| ParseArgs.FileKeysMembers | fsleyes/parseargs.py:1107-1110 | the file keys are exactly `target.option` over all of `FILE_OPTIONS` |
| ParseArgs.TargetTransformsContents | fsleyes/parseargs.py:1108-1110 | one target's options all map to `_imageTrans`, no other key is added and every other entry is kept |
| ParseArgs.FileTransformsContents | fsleyes/parseargs.py:1107-1110 | the loop gives every file key `_imageTrans`, keeps every other entry and adds no other key |
| ParseArgs.FileOptionKeys | fsleyes/parseargs.py:1030-1036 | the file keys of `FILE_OPTIONS` are the six `target.option` names it lists |
| ParseArgs.TransformsKeys | fsleyes/parseargs.py:1072-1110 | `TRANSFORMS` holds the literal keys and the file keys, and nothing else |
| ParseArgs.TransformsFileEntries | fsleyes/parseargs.py:1030-1110 | every option `FILE_OPTIONS` names transforms through `_imageTrans` |
| ParseArgs.TransformsBaseEntries | fsleyes/parseargs.py:1072-1110 | the literal entries keep their transforms: no file option overrides one |
| ParseArgs.HelpTextCases | fsleyes/parseargs.py:1173-1176 | `'no help'` without entries; the short text wins when asked for and present; otherwise the `HELP` text |
| ParseArgs.ConfigParser | fsleyes/parseargs.py:1157-1192 | `KeyError` iff a property has no `ARGUMENTS` entry; otherwise each property gets its short and long form and help text, and `extra` exactly when `getExtra` gives one |
| ParseArgs.RemoveName | fsleyes/parseargs.py:1404 | `list.remove`: one occurrence of the name goes, nothing else changes in the multiset |
| ParseArgs.RemoveNameDistinct | fsleyes/parseargs.py:1403-1412 | removing a name from a duplicate-free list leaves no occurrence of it |
| ParseArgs.MoveFileOptionsPermutes | fsleyes/parseargs.py:1408-1412 | the remaining names and the special options together are a permutation of the names; every special option is a file option |
| ParseArgs.MoveFileOptionsRemoves | fsleyes/parseargs.py:1408-1412 | on distinct names, no file option is left among the regular properties, which stay distinct |
| ParseArgs.SetupPropNames | fsleyes/parseargs.py:1395-1412 | the property-name steps of the overlay parser loop return what `OverlayPropNames` specifies: `ValueError` when `volume` must go and is missing |
| ParseArgs.DisplayPropNames | fsleyes/parseargs.py:1374-1377 | outside help, `overlayType` is removed once (`ValueError` iff it is missing); for help the list is kept |
| Profiles.CanvasLocation | fsleyes/profiles/__init__.py:898-911 | a canvas event's mouse position has its `y` flipped against the client height, and the canvas location is the world position |
| Profiles.PlotLocation | fsleyes/profiles/__init__.py:972-991 | `(None, None)` exactly before any `matplotlib` event; otherwise the last event's pixel and data coordinates |
| Profiles.ModifierKey | fsleyes/profiles/__init__.py:540-551 | no key exactly when no modifier is down, a single key exactly when one is, a tuple of two or more otherwise |
| Profiles.ModifierKeyDecodes | fsleyes/profiles/__init__.py:540-551 | the eight keys of the modifier table are distinct: the key gives back the modifiers that are down |
| Profiles.TempMode | fsleyes/profiles/__init__.py:529-553 | a temporary mode is found only under the current mode and the key of the held modifiers |
| Profiles.Resolve | fsleyes/profiles/__init__.py:601-603 | a forced mode wins, then the temporary mode, then the current mode |
| Profiles.HandlerName | fsleyes/profiles/__init__.py:620-624 | `_{mode}Mode{evType}` with a mode; without one `_` and the event type with a lower-cased first letter; `IndexError` exactly for no mode and an empty event type |
| Profiles.Default | fsleyes/profiles/__init__.py:620-633 | a found handler is a method the class has, under the name built for the pair; the only error is `IndexError` |
| Profiles.LookupKey | fsleyes/profiles/__init__.py:605-633 | a found handler is a method of the class; the only errors are `RecursionError` and `IndexError` |
| Profiles.WalkSucc | fsleyes/profiles/__init__.py:612-615 | walking `n + 1` alternate steps is walking `n` and one more |
| Profiles.WalkAdd | fsleyes/profiles/__init__.py:612-615 | walks compose: `a + b` steps are `b` steps after `a` |
| Profiles.CycleForever | fsleyes/profiles/__init__.py:608-615 | a chain that returns to a pair it passed keeps within the alternate handlers forever |
| Profiles.LookupFollowsChain | fsleyes/profiles/__init__.py:584-633 | the lookup follows alternate handlers to the first pair without one and takes its default handler; `RecursionError` exactly when no such pair is ever reached |
| Profiles.AltHandlerFirst | fsleyes/profiles/__init__.py:605-615 | an alternate handler takes precedence over the default handler of the resolved pair |
| Profiles.NoAltHandlers | fsleyes/profiles/__init__.py:617-633 | without alternate handlers the lookup is the default handler of the resolved pair |
| Profiles.LayeredKeys | fsleyes/profiles/__init__.py:342-354 | a key is in the profile's table exactly when some class of its method resolution order defines it |
| Profiles.MostDerivedWins | fsleyes/profiles/__init__.py:339-354 | the entry of the most derived class defining a key is the one kept |
| Profiles.MouseButton | fsleyes/profiles/__init__.py:569-581 | the event's button when it names one, else the first of left, right, middle held down, else `None` |
| Profiles.Handle | fsleyes/profiles/__init__.py:504-767 | events from other objects or outside the event table are dropped; a press or release sets the last canvas; a press records its location and a release clears it; a release with a handler is recorded; only methods of the class are called |
| Profiles.PressRelease | fsleyes/profiles/__init__.py:705-767 | a press then a release whose handler lookup finds `h` delivers to `h`, leaves no press behind, records the release position and canvas, and skips the event exactly when the handler returns false |
| Profiles.FirstMissing | fsleyes/profiles/__init__.py:961-969 | the first event name without an id, where `deregister` raises `KeyError` |
| Profiles.AssignClosed | fsleyes/profiles/__init__.py:956-958 | connecting names on one target maps each to the id `mpl_connect` returned |
| Profiles.ConnectedLast | fsleyes/profiles/__init__.py:951-958 | after `register` every name keeps the id of the last target only |
| Profiles.RegisterMapsAll | fsleyes/profiles/__init__.py:951-969 | after registering on at least one target every event name has an id, so `deregister` goes through |
| Profiles.PlotPanelEventManager.constructor | fsleyes/profiles/__init__.py:933-948 | the six event names, no last event and no ids |
| Profiles.PlotPanelEventManager.Register | fsleyes/profiles/__init__.py:951-958 | one `mpl_connect` per target and name, in order, and the id table as `Connected` says |
| Profiles.PlotPanelEventManager.Deregister | fsleyes/profiles/__init__.py:961-969 | every id is disconnected on every target and the table emptied; a name without an id raises `KeyError` at the first target after the disconnects before it |
| Profiles.PlotPanelEventManager.Receive | fsleyes/profiles/__init__.py:1001-1011 | an event is forwarded and kept as the last one exactly when its name is listened to |
| Profiles.Profile.MplEventOf | fsleyes/profiles/__init__.py:436-448 | `None` for a canvas profile; otherwise the plot manager's last event |
| Profiles.Profile.constructor | fsleyes/profiles/__init__.py:264-368 | the first mode is selected, the tables are those of `InitialConfig` and nothing is tracked yet |
| Profiles.Profile.ApplyClassTables | fsleyes/profiles/__init__.py:342-354 | the loop over the reversed method resolution order adds the layered tables, most derived last |
| Profiles.Profile.AddTempModes | fsleyes/profiles/__init__.py:348-349 | one class's temporary modes are added, overriding earlier entries |
| Profiles.Profile.AddAltHandlers | fsleyes/profiles/__init__.py:351-352 | one class's alternate handlers are added, overriding earlier entries |
| Profiles.Profile.AddTempMode | fsleyes/profiles/__init__.py:451-463 | sets one entry of the temporary mode table and nothing else |
| Profiles.Profile.AddAltHandler | fsleyes/profiles/__init__.py:466-479 | sets one entry of the alternate handler table and nothing else |
| Profiles.Profile.Register | fsleyes/profiles/__init__.py:482-490 | a plot profile's manager connects every target and name |
| Profiles.Profile.Deregister | fsleyes/profiles/__init__.py:493-501 | `KeyError` exactly when the plot manager's table lacks a name; otherwise the table is emptied |
| Profiles.Profile.Destroy | fsleyes/profiles/__init__.py:381-392 | the last canvas is forgotten, the profile detached, and the lookup settings kept |
| Profiles.Profile.OnMouseDown | fsleyes/profiles/__init__.py:705-737 | the result and the new tracking state are those of `MouseDown` |
| Profiles.Profile.OnMouseUp | fsleyes/profiles/__init__.py:740-767 | the result and the new tracking state are those of `MouseUp` |
| Profiles.Profile.OnMouseDrag | fsleyes/profiles/__init__.py:800-823 | the result and the new tracking state are those of `MouseDrag` |
| Profiles.Profile.OnMouseMove | fsleyes/profiles/__init__.py:770-797 | the result and the new tracking state are those of `MouseMove`, which hands drags to the drag handler |
| Profiles.Profile.OnPassive | fsleyes/profiles/__init__.py:636-702 | wheel, enter and leave events go to their handler and change no tracking state |
| Profiles.Profile.OnChar | fsleyes/profiles/__init__.py:826-843 | the result is that of `KeyChar` and no tracking state changes |
| Profiles.Profile.HandleEvent | fsleyes/profiles/__init__.py:504-526 | the result and the new tracking state are those of `Handle`; the lookup settings are unchanged |
| Profiles.Profile.OnPlotEvent | fsleyes/profiles/__init__.py:1001-1011 | an event not listened to is ignored; any other becomes the last event and is handled with the plot location |
| Profiles.NewProfile | fsleyes/profiles/__init__.py:296-304 | `ValueError` exactly for a view that is neither a canvas nor a plot; otherwise a fresh attached profile with the initial settings, and a plot manager exactly for a plot view |
| Profiles.ProfileManager.constructor | fsleyes/profiles/__init__.py:70-97 | no current profile and an empty lifecycle log |
| Profiles.ProfileManager.ChangeProfile | fsleyes/profiles/__init__.py:123-153 | `KeyError` for an unknown profile; nothing happens when the current profile has the requested class; otherwise the current profile is retired before the new one is created and registered, or `ValueError` for an unknown view |
| Profiles.ProfileManager.Destroy | fsleyes/profiles/__init__.py:100-115 | the current profile is deregistered and destroyed and the manager detached, unless the deregistration raises |
| Profiles.ProfileManager.Retire | fsleyes/profiles/__init__.py:137-144 | the current profile is deregistered and destroyed and no profile is current, unless the deregistration raises |
| Shaders.PathJoinEnds | fsleyes/gl/shaders/__init__.py:59 | `op.join` ends with its last part, an absolute last part replaces the first, and otherwise the first part is kept as a prefix |
| Shaders.GetFileName | fsleyes/gl/shaders/__init__.py:83-99 | `RuntimeError` exactly for a shader type other than `vert` and `frag`, checked before the version; `UnboundLocalError` exactly for a valid type under an OpenGL version other than 2.1 and 1.4 |
| Shaders.FileNameLayout | fsleyes/gl/shaders/__init__.py:54-99 | the file is `{prefix}_{type}.glsl` under `assets/gl/gl21` for OpenGL 2.1 and `{prefix}_{type}.prog` under `assets/gl/gl14` for 1.4 |
| Shaders.VertexFragmentDiffer | fsleyes/gl/shaders/__init__.py:95-99 | for a supported version the vertex and fragment programs are different files |
| Shaders.StripAll | fsleyes/gl/shaders/__init__.py:113 | every line is stripped, and the number of lines is kept |
| Shaders.Includes | fsleyes/gl/shaders/__init__.py:115-128 | each line's include, if any, is read off that line alone |
| Shaders.IncludeListEntry | fsleyes/gl/shaders/__init__.py:120-128 | every collected include names a line that holds that include |
| Shaders.CollectedIncludes | fsleyes/gl/shaders/__init__.py:115-128 | the two loops (pragma lines, then their three-word `include` forms) collect exactly the includes of the lines, in line order |
| Shaders.AppliedIncludes | fsleyes/gl/shaders/__init__.py:130-133 | applying the collected includes in order replaces each include line by its file and keeps every other line |
| Shaders.ExpandedIsApplied | fsleyes/gl/shaders/__init__.py:130-133 | the replacement loop gives the reference expansion |
| Shaders.IncludeListHas | fsleyes/gl/shaders/__init__.py:120-128 | every include line is in the collected list |
| Shaders.NoIncludeListNone | fsleyes/gl/shaders/__init__.py:120-128 | an empty include list means no line includes anything |
| Shaders.CollectPragmas | fsleyes/gl/shaders/__init__.py:115-118 | the indices of the lines starting with `#pragma`, in order |
| Shaders.CollectIncludes | fsleyes/gl/shaders/__init__.py:120-128 | the `(line, file)` pairs of the pragma lines that are three words with `include` second |
| Shaders.ReadIncludes | fsleyes/gl/shaders/__init__.py:130-133 | `IOError` exactly when some included file is missing; otherwise every include line replaced by its file's text |
| Shaders.Preprocess | fsleyes/gl/shaders/__init__.py:102-135 | the result is the `Preprocessed` specification of the source |
| Shaders.Splice | fsleyes/gl/shaders/__init__.py:109-135 | on stripped lines: no includes gives the lines joined; includes under an unknown version raise `UnboundLocalError`; otherwise the expansion joined, or `IOError` for a missing file |
| Shaders.NoIncludesIdentity | fsleyes/gl/shaders/__init__.py:112-135 | a source whose lines are already stripped and include nothing comes back unchanged, whatever the OpenGL version |
| Shaders.ExpandedNoIncludes | fsleyes/gl/shaders/__init__.py:130-133 | without includes the expansion is the lines themselves |
| Shaders.PreprocessedIsJoin | fsleyes/gl/shaders/__init__.py:112-135 | any result is the reference expansion of the stripped lines joined with newlines |
| Shaders.ExpandedPiecesFree | fsleyes/gl/shaders/__init__.py:112-133 | with single-line included files no expanded line holds a newline |
| Shaders.PreprocessedLines | fsleyes/gl/shaders/__init__.py:112-135 | with single-line included files the result has as many lines as the source, each the stripped source line or, for an include line, the included text |
| Shaders.PreprocessedErrors | fsleyes/gl/shaders/__init__.py:109-133 | `preprocess` raises only `UnboundLocalError`, and only for an unsupported version, or `IOError` |
| Shaders.GetShader | fsleyes/gl/shaders/__init__.py:74-80 | reads the program's file and preprocesses it; `RuntimeError` exactly for an invalid shader type |
| Shaders.GetVertexShader | fsleyes/gl/shaders/__init__.py:62-66 | the `vert` program, which never raises `RuntimeError` |
| Shaders.GetFragmentShader | fsleyes/gl/shaders/__init__.py:69-71 | the `frag` program, which never raises `RuntimeError` |

## Left out

- Foreign GUI and OpenGL calls are not modelled:
  - wx `Layout`, `Bind`/`Unbind`, `SetFocus`, `canvasToWorld` and logging. An event
    carries its world position instead of `canvasToWorld` computing it.
  - `CanvasPanelEventManager.register`/`deregister`, which only bind wx events.
  - The `Filter` class and all OpenGL calls.
- `setNavOrder` (fsleyes/controls/overlaydisplaypanel.py:179-184) is not modelled. It
  only hands the widgets to wx for keyboard navigation.
- `WidgetList` and `props.buildGUI` are represented by stand-in classes that record
  groups, titles, expansion states and rows, and that hand out fresh widget handles.
  - Builder functions are opaque parameters; their own widgets are not modelled.
  - Group titles and the `strings`/`tooltips` tables are parameters.
  - Each group's property list and spec dictionary are parameters of the panel
    (`Resolved.props`, `Resolved.specs`). They are not tied to the
    `getPropertyList`/`getWidgetSpecs` results of the widgets module
    (fsleyes/controls/overlaydisplaypanel.py:229-234).
- OverlayDisplayPanel.Panel.constructor: the `KeyError` that the first refresh raises when
  a group lacks a spec is dropped here, because a constructor returns no result. The
  shown state is then only promised when every group has its specs.
- OverlayDisplayPanel.Panel.OvlTypeChanged: requires `__widgets` to be set, so a type
  change after the overlay was cleared is not modelled. In the source it would fail on
  `None`.
- `TypeDict.get(..., allhits=True)`: its hit order is a parameter (`order`, `hits`)
  rather than being computed from the class hierarchy.
- The widget tables keep only each widget's property, dependencies and `enabledWhen`
  rule. Labels, limits and other presentation keyword arguments are left out.
- `getOverlayTypes`: the shape and the NIFTI intent are parameters, as is the set of
  SH coefficient counts (`SH_COEFFICIENT_TYPE`).
- DisplayContext.GetOverlayTypes: `OVERLAY_TYPES` is looked up by the overlay's own class
  name only. The source's `TypeDict` would also find the entry of a base class, so an
  unregistered subclass of `Image` or `Model` gets `KeyError` in the model only.
- ParseArgs leaves out several parts:
  - real `argparse` parsing, help printing, `sys.exit` and the usage text;
  - `applySceneArgs`, `applyOverlayArgs` and `_findOrLoad`, which schedule work and
    load images;
  - `calcCanvasCentres`, which is float arithmetic;
  - `groupEpilog`;
  - `getExtra`, which is a parameter (`extraOf`);
  - file existence and `guessDataSourceType`, which are function parameters;
  - the `add_argument` calls for the special file options
    (fsleyes/parseargs.py:1418-1428);
  - `props.addParserArguments` itself: the model returns the arguments it would be
    given.
- ParseArgs.ImageTransCases: `str(i).lower()` is taken as ASCII lower-casing of a given
  text. An overlay's `str` is a parameter of the model.
- Profiles.HandlerName: `evType[0].lower()` is taken as ASCII lower-casing. The
  event names the profiles pass are fixed ASCII words, so nothing else reaches it.
- ParseArgs.TransformLaws: colours are sequences of reals. Float rounding plays no part
  in `c[:3]`.
- Profiles leaves out several things:
  - the Mac-specific wheel sign flip;
  - what a handler does;
  - its arguments beyond the event.

  A handler's boolean answer is an input (`accepted`).
- Profiles.LookupKey: a cycle of alternate handlers is reported as `RecursionError`.
  Python's recursion limit on a very long but finite chain is not modelled.
- Mouse and canvas coordinates are integers. Display-space coordinates are floats in
  the source.
- A profile class is a value (`ProfileClass`: name, method resolution order, handler
  names and modes). Class identity is comparison of these values.
- Profiles.ProfileManager.ChangeProfile: the order of creation, registration and
  retirement is stated through a ghost lifecycle log.
- Shaders: `fslgl.GL_VERSION` and `fsleyes.assetDir` are parameters.
  - Text-mode reads translate newlines (`'rt'`); the model reads the text as stored.
  - `ReadFile`'s empty-text fallback for a missing file is never used on a successful
    result, because `ReadIncludes` raises `IOError` first.
- PyText.ParseInt: only ASCII digits are read. Python's `int()` also accepts other
  Unicode decimal digits.
- PyText.IsDigit: only the ASCII digits count. Python's `str.isdigit` also accepts other
  Unicode digits, such as the superscript in `'1²'`.
- Version.ParsePoint inherits this. For the point part `'1²'`, Python takes the
  all-digits branch and `int()` raises `ValueError`. The model takes the hot-fix branch
  and reads `(1, 178)`.
- Version: `__version__` itself is not modelled. Its layout is covered by
  `FormatSplits`/`ParseFormat`.

## Findings

| source | as written | input that shows it | evidently intended | confidence | as-written member | corrected member |
|---|---|---|---|---|---|---|
| fsleyes/controls/overlaydisplaypanel.py:197 | `self.__widgets[opts] = self.updateWidgets(opts, 'opts')` stores the rebuilt widget list under the new opts object. The `'opts'` entry keeps the widgets that were just destroyed, and every type change adds another key. | Select an overlay, then change its `overlayType` (new opts object `o`). Afterwards `__widgets['opts']` is still the old list and `__widgets[o]` holds the new one. | the rebuilt list replaces `__widgets['opts']`, and the keys stay the groups | not executed | OverlayDisplayPanel.Panel.OvlTypeChangedAsWritten, OverlayDisplayPanel.RekeyAsWrittenKeepsStale | OverlayDisplayPanel.Panel.OvlTypeChanged, OverlayDisplayPanel.RekeyReplaces |
