/** The overlay display panel: for the selected overlay it shows one widget group per
    settings object (`display`, `opts` and, on a 3D view, `3d`), each group holding one
    row per property, built from the registry of `OverlayDisplayWidgets`. */
module OverlayDisplayPanel {
  import opened Wrappers
  import opened OverlayDisplayWidgets

  /** A widget, sizer or container created on the panel. */
  type Handle = nat

  /** An overlay, by identity. */
  type OverlayId = nat

  /** What a builder function returns: a container with the widgets it made (for the
      navigation order), or a list of declarative specs to be built one by one. */
  datatype BuilderResult = Container(container: Handle, widgets: seq<Handle>) | SpecList(specs: seq<WidgetSpec>)

  /** Everything `updateWidgets` learns about one settings object for one group: the
      property list and spec dictionary of the registry, the label and tooltip tables
      (`strings.properties` and `tooltips.properties` for this object) and what each
      builder returns when called on it. */
  datatype Resolved = Resolved(
    props: seq<Prop>,
    specs: map<Prop, Spec>,
    labels: map<Prop, string>,
    tooltips: map<Prop, string>,
    build: Builder -> BuilderResult)

  /** A settings object (`Display` or `DisplayOpts`) with its 2D and 3D resolutions. */
  datatype TargetTables = TargetTables(plain: Resolved, threeD: Resolved)

  /** `updateWidgets` reads the 3D lists for the `3d` group and the others otherwise. */
  function ResolvedFor(target: TargetTables, groupName: string): Resolved
  {
    if groupName == "3d" then target.threeD else target.plain
  }

  /** `d.get(k, None)` */
  function Get(d: map<Prop, string>, k: Prop): Option<string>
  {
    if k in d then Some(d[k]) else None
  }

  /** `n` consecutive fresh handles from `start` on. */
  function Range(start: nat, n: nat): (r: seq<Handle>)
    ensures |r| == n
    ensures forall i :: 0 <= i < n ==> r[i] == start + i
  {
    seq(n, i requires 0 <= i < n => start + i)
  }

  /** The four lists `updateWidgets` builds, and the next fresh handle. */
  datatype Acc = Acc(
    containers: seq<Handle>,
    labels: seq<Option<string>>,
    tooltips: seq<Option<string>>,
    widgets: seq<Handle>,
    next: nat)

  /** What one property contributes before its specs are built: the specs still to build,
      their labels and tooltips, and the containers and widgets a builder made itself. */
  datatype Pieces = Pieces(
    specs: seq<WidgetSpec>,
    labels: seq<Option<string>>,
    tooltips: seq<Option<string>>,
    containers: seq<Handle>,
    widgets: seq<Handle>)

  /** The entry of `d` for each spec's key. */
  function TextsOf(ss: seq<WidgetSpec>, d: map<Prop, string>): (r: seq<Option<string>>)
    ensures |r| == |ss|
  {
    seq(|ss|, i requires 0 <= i < |ss| => Get(d, ss[i].key))
  }

  function PiecesOf(p: Prop, res: Resolved): (pc: Pieces)
    requires p in res.specs
    ensures |pc.labels| == |pc.tooltips| == |pc.specs| + |pc.containers|
  {
    match res.specs[p]
    case Declared(w) => Pieces([w], [Get(res.labels, p)], [Get(res.tooltips, p)], [], [])
    case Built(b) =>
      match res.build(b)
      case SpecList(ss) =>
        Pieces(ss, TextsOf(ss, res.labels), TextsOf(ss, res.tooltips), [], [])
      case Container(c, ws) => Pieces([], [Get(res.labels, p)], [Get(res.tooltips, p)], [c], ws)
  }

  /** One iteration of the property loop. */
  function Step(acc: Acc, p: Prop, res: Resolved): Acc
    requires p in res.specs
  {
    var pc := PiecesOf(p, res);
    var built := Range(acc.next, |pc.specs|);
    Acc(acc.containers + pc.containers + built, acc.labels + pc.labels,
        acc.tooltips + pc.tooltips, acc.widgets + pc.widgets + built, acc.next + |pc.specs|)
  }

  predicate AllSpecified(props: seq<Prop>, specs: map<Prop, Spec>)
  {
    forall i :: 0 <= i < |props| ==> props[i] in specs
  }

  /** The lists after the loop has run over `props`, starting from handle `start`. */
  function Assemble(props: seq<Prop>, res: Resolved, start: nat): Acc
    requires AllSpecified(props, res.specs)
  {
    if |props| == 0 then Acc([], [], [], [], start)
    else
      Step(Assemble(props[..|props| - 1], res, start), props[|props| - 1], res)
  }

  /** The rows added to the group: containers, labels and tooltips zipped, with a missing
      label shown as `''` and a missing tooltip left missing. */
  datatype Row = Row(widget: Handle, caption: string, tooltip: Option<string>)

  function Min3(a: nat, b: nat, c: nat): nat
  {
    if a <= b && a <= c then a else if b <= c then b else c
  }

  function RowsOf(acc: Acc): (rows: seq<Row>)
    ensures |rows| == Min3(|acc.containers|, |acc.labels|, |acc.tooltips|)
  {
    var n := Min3(|acc.containers|, |acc.labels|, |acc.tooltips|);
    seq(n, i requires 0 <= i < n =>
      Row(acc.containers[i], if acc.labels[i].None? then "" else acc.labels[i].value, acc.tooltips[i]))
  }

  // ---------------------------------------------------------------------------------
  // Properties of the assembly
  // ---------------------------------------------------------------------------------

  /** After every property the container, label and tooltip lists have the same length,
      so zipping them drops nothing; handles are drawn consecutively. */
  lemma {:induction false} AssembleAligned(props: seq<Prop>, res: Resolved, start: nat)
    requires AllSpecified(props, res.specs)
    ensures |Assemble(props, res, start).containers| == |Assemble(props, res, start).labels|
    ensures |Assemble(props, res, start).labels| == |Assemble(props, res, start).tooltips|
    ensures Assemble(props, res, start).next >= start
  {
    if |props| > 0 {
      AssembleAligned(props[..|props| - 1], res, start);
    }
  }

  /** A declarative spec adds one new widget, to both the widget and container lists. */
  lemma StepDeclared(acc: Acc, p: Prop, res: Resolved)
    requires p in res.specs && res.specs[p].Declared?
    ensures Step(acc, p, res).containers == acc.containers + [acc.next]
    ensures Step(acc, p, res).widgets == acc.widgets + [acc.next]
    ensures Step(acc, p, res).labels == acc.labels + [Get(res.labels, p)]
    ensures Step(acc, p, res).tooltips == acc.tooltips + [Get(res.tooltips, p)]
    ensures Step(acc, p, res).next == acc.next + 1
  {
  }

  /** A builder that returns a container adds that container once to the container list
      and its widgets, not the container, to the widget list. */
  lemma StepContainer(acc: Acc, p: Prop, res: Resolved)
    requires p in res.specs && res.specs[p].Built? && res.build(res.specs[p].builder).Container?
    ensures Step(acc, p, res).containers == acc.containers + [res.build(res.specs[p].builder).container]
    ensures Step(acc, p, res).widgets == acc.widgets + res.build(res.specs[p].builder).widgets
    ensures Step(acc, p, res).labels == acc.labels + [Get(res.labels, p)]
    ensures Step(acc, p, res).next == acc.next
  {
  }

  /** A builder that returns specs gets one new widget per spec, with the label and
      tooltip looked up under each spec's own key. */
  lemma StepSpecList(acc: Acc, p: Prop, res: Resolved, ss: seq<WidgetSpec>)
    requires p in res.specs && res.specs[p].Built? && res.build(res.specs[p].builder) == SpecList(ss)
    ensures Step(acc, p, res).containers == acc.containers + Range(acc.next, |ss|)
    ensures Step(acc, p, res).widgets == acc.widgets + Range(acc.next, |ss|)
    ensures Step(acc, p, res).labels == acc.labels + TextsOf(ss, res.labels)
    ensures Step(acc, p, res).tooltips == acc.tooltips + TextsOf(ss, res.tooltips)
    ensures Step(acc, p, res).next == acc.next + |ss|
  {
    var pc := PiecesOf(p, res);
    assert pc.specs == ss && pc.containers == [] && pc.widgets == [];
    assert acc.containers + [] == acc.containers && acc.widgets + [] == acc.widgets;
  }

  /** Rows come in property order: the lists for a prefix of the properties are a prefix
      of the lists for all of them. */
  lemma {:induction false} AssemblePrefix(props: seq<Prop>, k: nat, res: Resolved, start: nat)
    requires AllSpecified(props, res.specs) && k <= |props|
    ensures AllSpecified(props[..k], res.specs)
    ensures Assemble(props[..k], res, start).containers <= Assemble(props, res, start).containers
    ensures Assemble(props[..k], res, start).labels <= Assemble(props, res, start).labels
    ensures Assemble(props[..k], res, start).widgets <= Assemble(props, res, start).widgets
    decreases |props|
  {
    if k < |props| {
      var init := props[..|props| - 1];
      assert init[..k] == props[..k];
      AssemblePrefix(init, k, res, start);
    } else {
      assert props[..k] == props;
    }
  }

  /** Each row shows its label, or `''` for none, and its tooltip as found. */
  lemma RowLabels(acc: Acc, i: nat)
    requires |acc.containers| == |acc.labels| == |acc.tooltips| && i < |acc.labels|
    ensures |RowsOf(acc)| == |acc.containers|
    ensures RowsOf(acc)[i].widget == acc.containers[i]
    ensures RowsOf(acc)[i].caption == if acc.labels[i].None? then "" else acc.labels[i].value
    ensures RowsOf(acc)[i].tooltip == acc.tooltips[i]
  {
  }

  // ---------------------------------------------------------------------------------
  // The panel
  // ---------------------------------------------------------------------------------

  /** Keys of `__widgets`: group names, or (as `__ovlTypeChanged` writes) an opts object. */
  datatype WidgetsKey = Group(name: string) | OptsObject(id: nat)

  /** The groups a panel shows: `3d` only on a 3D view panel. */
  function GroupNames(is3D: bool): (gs: seq<string>)
    ensures |gs| >= 2 && gs[0] == "display" && gs[1] == "opts"
  {
    if is3D then ["display", "opts", "3d"] else ["display", "opts"]
  }

  /** `__ovlTypeChanged`'s update of `__widgets`, as written: the new list is stored
      under the opts object itself. */
  function RekeyAsWritten(ws: map<WidgetsKey, seq<Handle>>, optsId: nat, rebuilt: seq<Handle>): map<WidgetsKey, seq<Handle>>
  {
    ws[OptsObject(optsId) := rebuilt]
  }

  /** The update as intended: the new list replaces the `opts` group's. */
  function Rekey(ws: map<WidgetsKey, seq<Handle>>, rebuilt: seq<Handle>): map<WidgetsKey, seq<Handle>>
  {
    ws[Group("opts") := rebuilt]
  }

  /** As written, the `opts` group keeps its old widgets and the dictionary gains a key,
      so the navigation order still holds the destroyed widgets of the old opts. */
  lemma RekeyAsWrittenKeepsStale(ws: map<WidgetsKey, seq<Handle>>, optsId: nat, rebuilt: seq<Handle>)
    requires Group("opts") in ws
    ensures Group("opts") in RekeyAsWritten(ws, optsId, rebuilt)
    ensures RekeyAsWritten(ws, optsId, rebuilt)[Group("opts")] == ws[Group("opts")]
    ensures OptsObject(optsId) !in ws ==> |RekeyAsWritten(ws, optsId, rebuilt).Keys| == |ws.Keys| + 1
  {
  }

  /** Intended: the groups stay the same, `opts` holds the new widgets, and every other
      group is untouched. */
  lemma RekeyReplaces(ws: map<WidgetsKey, seq<Handle>>, rebuilt: seq<Handle>)
    requires Group("opts") in ws
    ensures Rekey(ws, rebuilt).Keys == ws.Keys
    ensures Rekey(ws, rebuilt)[Group("opts")] == rebuilt
    ensures forall k :: k in ws && k != Group("opts") ==> Rekey(ws, rebuilt)[k] == ws[k]
  {
  }

  /** The group keys of `__widgets` after groups `gs` have been built. */
  function GroupKeys(gs: seq<string>): set<WidgetsKey>
  {
    if |gs| == 0 then {} else GroupKeys(gs[..|gs| - 1]) + {Group(gs[|gs| - 1])}
  }

  lemma {:induction false} GroupKeysMembers(gs: seq<string>, k: WidgetsKey)
    ensures k in GroupKeys(gs) <==> k.Group? && k.name in gs
  {
    if |gs| > 0 {
      GroupKeysMembers(gs[..|gs| - 1], k);
      assert gs == gs[..|gs| - 1] + [gs[|gs| - 1]];
    }
  }

  predicate DistinctNames(gs: seq<string>)
  {
    forall a, b :: 0 <= a < b < |gs| ==> gs[a] != gs[b]
  }

  /** The settings object shown in group `g`: the `Display` for `display`, the
      `DisplayOpts` for `opts` and `3d`. */
  function TargetFor(g: string, display: TargetTables, opts: TargetTables): TargetTables
  {
    if g == "display" then display else opts
  }

  /** Every group's property list has a spec for each of its properties. */
  predicate GroupsSpecified(gs: seq<string>, display: TargetTables, opts: TargetTables)
  {
    forall j :: 0 <= j < |gs| ==> GroupSpecified(gs[j], display, opts)
  }

  predicate GroupSpecified(g: string, display: TargetTables, opts: TargetTables)
  {
    var res := ResolvedFor(TargetFor(g, display, opts), g);
    AllSpecified(res.props, res.specs)
  }

  /** Whether a group is re-expanded: as it was for the previous overlay, or expanded
      when there was none. */
  function KeepExpanded(last: Option<OverlayId>, expanded: map<string, bool>, g: string): bool
  {
    if last.Some? && g in expanded then expanded[g] else true
  }

  /** `IsExpanded` succeeds for every group, or is not called. */
  predicate ExpansionKnown(last: Option<OverlayId>, expanded: map<string, bool>, gs: seq<string>)
  {
    last.None? || forall j :: 0 <= j < |gs| ==> gs[j] in expanded
  }

  /** The listener moves from the previous overlay's display (when that overlay is still
      in the list) to the new one's. */
  function ListenersAfter(listening: set<OverlayId>, last: Option<OverlayId>, overlays: seq<OverlayId>,
                          overlay: OverlayId): set<OverlayId>
  {
    (if last.Some? && last.value in overlays then listening - {last.value} else listening) + {overlay}
  }

  lemma GroupNamesDistinct(is3D: bool)
    ensures DistinctNames(GroupNames(is3D))
  {
    assert "display"[0] != "opts"[0] && "display"[0] != "3d"[0] && "opts"[0] != "3d"[0];
  }

  /** The group titles after groups `gs` have been added with titles `ts`. */
  function TitleMap(gs: seq<string>, ts: seq<string>): map<string, string>
    requires |gs| == |ts|
  {
    if |gs| == 0 then map[] else TitleMap(gs[..|gs| - 1], ts[..|ts| - 1])[gs[|gs| - 1] := ts[|ts| - 1]]
  }

  /** The expansion states after groups `gs` have been expanded as `keep` says. */
  function ExpandMap(gs: seq<string>, keep: map<string, bool>): map<string, bool>
    requires forall j :: 0 <= j < |gs| ==> gs[j] in keep
  {
    if |gs| == 0 then map[] else ExpandMap(gs[..|gs| - 1], keep)[gs[|gs| - 1] := keep[gs[|gs| - 1]]]
  }

  /** The names of groups `gs`. */
  function NameSet(gs: seq<string>): set<string>
  {
    if |gs| == 0 then {} else NameSet(gs[..|gs| - 1]) + {gs[|gs| - 1]}
  }

  /** With distinct group names, each group has the title it was added with. */
  lemma {:induction false} TitleMapLookup(gs: seq<string>, ts: seq<string>, j: nat)
    requires |gs| == |ts| && DistinctNames(gs) && j < |gs|
    ensures gs[j] in TitleMap(gs, ts) && TitleMap(gs, ts)[gs[j]] == ts[j]
  {
    var n := |gs| - 1;
    if j < n {
      assert DistinctNames(gs[..n]);
      TitleMapLookup(gs[..n], ts[..n], j);
      assert gs[j] != gs[n];
    }
  }

  /** Each group is expanded as `keep` says for its name. */
  lemma {:induction false} ExpandMapLookup(gs: seq<string>, keep: map<string, bool>, j: nat)
    requires forall i :: 0 <= i < |gs| ==> gs[i] in keep
    requires j < |gs|
    ensures gs[j] in ExpandMap(gs, keep) && ExpandMap(gs, keep)[gs[j]] == keep[gs[j]]
  {
    var n := |gs| - 1;
    if j < n {
      ExpandMapLookup(gs[..n], keep, j);
    }
  }

  lemma {:induction false} NameSetMembers(gs: seq<string>, g: string)
    ensures g in NameSet(gs) <==> g in gs
  {
    if |gs| > 0 {
      NameSetMembers(gs[..|gs| - 1], g);
      assert gs == gs[..|gs| - 1] + [gs[|gs| - 1]];
    }
  }

  /** Adding group `gs[i]` extends each of the group tables by that group. */
  lemma GroupStep(gs: seq<string>, ts: seq<string>, keep: map<string, bool>, i: nat)
    requires |gs| == |ts| && i < |gs|
    requires forall j :: 0 <= j < |gs| ==> gs[j] in keep
    ensures gs[..i + 1] == gs[..i] + [gs[i]]
    ensures GroupKeys(gs[..i + 1]) == GroupKeys(gs[..i]) + {Group(gs[i])}
    ensures NameSet(gs[..i + 1]) == NameSet(gs[..i]) + {gs[i]}
    ensures TitleMap(gs[..i + 1], ts[..i + 1]) == TitleMap(gs[..i], ts[..i])[gs[i] := ts[i]]
    ensures ExpandMap(gs[..i + 1], keep) == ExpandMap(gs[..i], keep)[gs[i] := keep[gs[i]]]
  {
    assert gs[..i + 1][..i] == gs[..i] && ts[..i + 1][..i] == ts[..i];
  }

  /** Looking groups up in the title and expansion maps. */
  lemma GroupLookups(gs: seq<string>, ts: seq<string>, keep: map<string, bool>)
    requires |gs| == |ts| && DistinctNames(gs)
    requires forall j :: 0 <= j < |gs| ==> gs[j] in keep
    ensures forall j :: 0 <= j < |gs| ==>
              gs[j] in TitleMap(gs, ts) && TitleMap(gs, ts)[gs[j]] == ts[j] &&
              gs[j] in ExpandMap(gs, keep) && ExpandMap(gs, keep)[gs[j]] == keep[gs[j]]
  {
    forall j | 0 <= j < |gs|
      ensures gs[j] in TitleMap(gs, ts) && TitleMap(gs, ts)[gs[j]] == ts[j]
      ensures gs[j] in ExpandMap(gs, keep) && ExpandMap(gs, keep)[gs[j]] == keep[gs[j]]
    {
      TitleMapLookup(gs, ts, j);
      ExpandMapLookup(gs, keep, j);
    }
  }

  /** The lists `updateWidgets(target, g)` builds for group `g`, from handle `start` on. */
  function GroupAcc(g: string, display: TargetTables, opts: TargetTables, start: nat): Acc
    requires GroupSpecified(g, display, opts)
  {
    var res := ResolvedFor(TargetFor(g, display, opts), g);
    Assemble(res.props, res, start)
  }

  /** The rows of the widget list, the `__widgets` dictionary and the next fresh handle
      after groups `gs` have been built in order. */
  datatype Shown = Shown(rows: map<string, seq<Row>>, widgets: map<WidgetsKey, seq<Handle>>, next: nat)

  function ShowGroups(gs: seq<string>, display: TargetTables, opts: TargetTables, start: nat): Shown
    requires GroupsSpecified(gs, display, opts)
  {
    if |gs| == 0 then Shown(map[], map[], start)
    else
      var g := gs[|gs| - 1];
      var before := ShowGroups(gs[..|gs| - 1], display, opts, start);
      var acc := GroupAcc(g, display, opts, before.next);
      Shown(before.rows[g := RowsOf(acc)], before.widgets[Group(g) := acc.widgets], acc.next)
  }

  /** Building group `gs[i]` after the first `i` extends the tables by that group. */
  lemma ShowStep(gs: seq<string>, display: TargetTables, opts: TargetTables, start: nat, i: nat)
    requires i < |gs| && GroupsSpecified(gs[..i], display, opts) && GroupSpecified(gs[i], display, opts)
    ensures GroupsSpecified(gs[..i + 1], display, opts)
    ensures var before := ShowGroups(gs[..i], display, opts, start);
            var acc := GroupAcc(gs[i], display, opts, before.next);
            ShowGroups(gs[..i + 1], display, opts, start) ==
              Shown(before.rows[gs[i] := RowsOf(acc)], before.widgets[Group(gs[i]) := acc.widgets], acc.next)
  {
    assert gs[..i + 1][..i] == gs[..i];
  }

  /** The tables hold one entry per group and no other. */
  lemma {:induction false} ShowGroupsKeys(gs: seq<string>, display: TargetTables, opts: TargetTables, start: nat)
    requires GroupsSpecified(gs, display, opts)
    ensures ShowGroups(gs, display, opts, start).rows.Keys == NameSet(gs)
    ensures ShowGroups(gs, display, opts, start).widgets.Keys == GroupKeys(gs)
    ensures ShowGroups(gs, display, opts, start).next >= start
  {
    if |gs| > 0 {
      var init := gs[..|gs| - 1];
      ShowGroupsKeys(init, display, opts, start);
      var before := ShowGroups(init, display, opts, start);
      AssembleAligned(ResolvedFor(TargetFor(gs[|gs| - 1], display, opts), gs[|gs| - 1]).props,
                      ResolvedFor(TargetFor(gs[|gs| - 1], display, opts), gs[|gs| - 1]), before.next);
    }
  }

  /** With distinct names, group `gs[j]` holds the rows and widgets `updateWidgets` built for
      it, drawn from the handles the groups before it left. */
  lemma {:induction false} ShowGroupsLookup(gs: seq<string>, display: TargetTables, opts: TargetTables, start: nat, j: nat)
    requires GroupsSpecified(gs, display, opts) && DistinctNames(gs) && j < |gs|
    ensures GroupsSpecified(gs[..j], display, opts)
    ensures var acc := GroupAcc(gs[j], display, opts, ShowGroups(gs[..j], display, opts, start).next);
            gs[j] in ShowGroups(gs, display, opts, start).rows &&
            ShowGroups(gs, display, opts, start).rows[gs[j]] == RowsOf(acc) &&
            Group(gs[j]) in ShowGroups(gs, display, opts, start).widgets &&
            ShowGroups(gs, display, opts, start).widgets[Group(gs[j])] == acc.widgets
  {
    var n := |gs| - 1;
    if j < n {
      var init := gs[..n];
      assert DistinctNames(init);
      assert init[..j] == gs[..j];
      ShowGroupsLookup(init, display, opts, start, j);
      assert gs[j] != gs[n];
    } else {
      assert gs[..j] == gs[..n];
    }
  }

  lemma {:induction false} TitleMapKeys(gs: seq<string>, ts: seq<string>)
    requires |gs| == |ts|
    ensures TitleMap(gs, ts).Keys == NameSet(gs)
  {
    if |gs| > 0 {
      TitleMapKeys(gs[..|gs| - 1], ts[..|ts| - 1]);
    }
  }

  lemma {:induction false} ExpandMapKeys(gs: seq<string>, keep: map<string, bool>)
    requires forall j :: 0 <= j < |gs| ==> gs[j] in keep
    ensures ExpandMap(gs, keep).Keys == NameSet(gs)
  {
    if |gs| > 0 {
      ExpandMapKeys(gs[..|gs| - 1], keep);
    }
  }

  /** The title and expansion tables hold exactly groups `gs`, with the titles `ts` and the
      expansion each group is to keep from the previous overlay `last`. */
  predicate TablesShow(gs: seq<string>, ts: seq<string>, last: Option<OverlayId>, before: map<string, bool>,
                       titles: map<string, string>, expanded: map<string, bool>)
  {
    |ts| == |gs| && titles.Keys == NameSet(gs) && expanded.Keys == NameSet(gs) &&
    forall j :: 0 <= j < |gs| ==>
      gs[j] in titles && titles[gs[j]] == ts[j] &&
      gs[j] in expanded && expanded[gs[j]] == KeepExpanded(last, before, gs[j])
  }

  lemma TablesShown(gs: seq<string>, ts: seq<string>, keep: map<string, bool>, last: Option<OverlayId>,
                    before: map<string, bool>)
    requires |gs| == |ts| && DistinctNames(gs)
    requires forall j :: 0 <= j < |gs| ==> gs[j] in keep && keep[gs[j]] == KeepExpanded(last, before, gs[j])
    ensures TablesShow(gs, ts, last, before, TitleMap(gs, ts), ExpandMap(gs, keep))
  {
    GroupLookups(gs, ts, keep);
    TitleMapKeys(gs, ts);
    ExpandMapKeys(gs, keep);
  }

  /** Stands in for the `WidgetList` of the settings panel: named, titled groups that
      can be collapsed, each holding labelled rows. */
  class WidgetList {
    var groups: seq<string>
    var titles: map<string, string>
    var expanded: map<string, bool>
    var rows: map<string, seq<Row>>

    constructor()
      ensures groups == [] && titles == map[] && expanded == map[] && rows == map[]
    {
      groups := [];
      titles := map[];
      expanded := map[];
      rows := map[];
    }

    method Clear()
      modifies this
      ensures groups == [] && titles == map[] && expanded == map[] && rows == map[]
    {
      groups := [];
      titles := map[];
      expanded := map[];
      rows := map[];
    }

    method AddGroup(name: string, title: string)
      modifies this
      ensures groups == old(groups) + [name] && titles == old(titles)[name := title]
      ensures rows == old(rows)[name := []] && expanded == old(expanded)
    {
      groups := groups + [name];
      titles := titles[name := title];
      rows := rows[name := []];
    }

    /** Looking up a group that is not there raises `KeyError`. */
    method IsExpanded(name: string) returns (r: Result<bool>)
      ensures name in expanded ==> r == Ok(expanded[name])
      ensures name !in expanded ==> r == Err(KeyError)
    {
      if name in expanded {
        r := Ok(expanded[name]);
      } else {
        r := Err(KeyError);
      }
    }

    method Expand(name: string, expand: bool)
      modifies this
      ensures expanded == old(expanded)[name := expand]
      ensures groups == old(groups) && titles == old(titles) && rows == old(rows)
    {
      expanded := expanded[name := expand];
    }

    method RenameGroup(name: string, title: string) returns (r: Result<()>)
      modifies this
      ensures name in old(titles) ==> r.Ok? && titles == old(titles)[name := title]
      ensures name !in old(titles) ==> r == Err(KeyError) && titles == old(titles)
      ensures groups == old(groups) && expanded == old(expanded) && rows == old(rows)
    {
      if name in titles {
        titles := titles[name := title];
        r := Ok(());
      } else {
        r := Err(KeyError);
      }
    }

    method ClearGroup(name: string) returns (r: Result<()>)
      modifies this
      ensures name in old(rows) ==> r.Ok? && rows == old(rows)[name := []]
      ensures name !in old(rows) ==> r == Err(KeyError) && rows == old(rows)
      ensures groups == old(groups) && titles == old(titles) && expanded == old(expanded)
    {
      if name in rows {
        rows := rows[name := []];
        r := Ok(());
      } else {
        r := Err(KeyError);
      }
    }

    method AddWidget(name: string, row: Row)
      requires name in rows
      modifies this
      ensures rows == old(rows)[name := old(rows)[name] + [row]]
      ensures groups == old(groups) && titles == old(titles) && expanded == old(expanded)
    {
      rows := rows[name := rows[name] + [row]];
    }
  }

  /** Stands in for `props.buildGUI`: every call creates a new widget. */
  class GuiBuilder {
    var next: nat

    constructor()
      ensures next == 0
    {
      next := 0;
    }

    method BuildGUI() returns (h: Handle)
      modifies this
      ensures h == old(next) && next == old(next) + 1
    {
      h := next;
      next := next + 1;
    }

    /** `for s in specs: widget = props.buildGUI(...)`: one new widget per spec. */
    method BuildAll(specs: seq<WidgetSpec>) returns (built: seq<Handle>)
      modifies this
      ensures built == Range(old(next), |specs|) && next == old(next) + |specs|
    {
      built := [];
      var j := 0;
      while j < |specs|
        invariant 0 <= j <= |specs|
        invariant built == Range(old(next), j) && next == old(next) + j
      {
        var h := BuildGUI();
        built := built + [h];
        j := j + 1;
      }
    }
  }

  /** The label and tooltip of every spec a builder returned, looked up by its key. */
  method SpecTexts(ss: seq<WidgetSpec>, res: Resolved) returns (labels: seq<Option<string>>, tooltips: seq<Option<string>>)
    ensures labels == TextsOf(ss, res.labels) && tooltips == TextsOf(ss, res.tooltips)
  {
    labels := [];
    tooltips := [];
    var j := 0;
    while j < |ss|
      invariant 0 <= j <= |ss| && |labels| == j && |tooltips| == j
      invariant forall k :: 0 <= k < j ==> labels[k] == Get(res.labels, ss[k].key)
      invariant forall k :: 0 <= k < j ==> tooltips[k] == Get(res.tooltips, ss[k].key)
    {
      labels := labels + [Get(res.labels, ss[j].key)];
      tooltips := tooltips + [Get(res.tooltips, ss[j].key)];
      j := j + 1;
    }
  }

  /** The pieces of one property: `[spec]` with its label and tooltip, replaced by what
      the builder returns when the spec is callable. */
  method PropertyPieces(p: Prop, res: Resolved) returns (pc: Pieces)
    requires p in res.specs
    ensures pc == PiecesOf(p, res)
  {
    match res.specs[p] {
      case Declared(w) =>
        pc := Pieces([w], [Get(res.labels, p)], [Get(res.tooltips, p)], [], []);
      case Built(b) =>
        var out := res.build(b);
        match out {
          case SpecList(ss) =>
            var labels, tooltips := SpecTexts(ss, res);
            pc := Pieces(ss, labels, tooltips, [], []);
          case Container(c, ws) =>
            pc := Pieces([], [Get(res.labels, p)], [Get(res.tooltips, p)], [c], ws);
        }
    }
  }

  class Panel {
    /** Whether the parent view is a `Scene3DPanel`. */
    const is3D: bool
    const widgetList: WidgetList
    const gui: GuiBuilder
    var currentOverlay: Option<OverlayId>
    var widgets: Option<map<WidgetsKey, seq<Handle>>>
    /** The overlays whose `Display.overlayType` this panel listens to. */
    var listening: set<OverlayId>

    /** `__init__`: nothing shown and no listener yet, then a first refresh for the
        overlay selected at creation. */
    constructor(is3D: bool, overlay: Option<OverlayId>, overlays: seq<OverlayId>, display: TargetTables,
                opts: TargetTables, titles: seq<string>)
      requires |titles| == |GroupNames(is3D)|
      ensures this.is3D == is3D && fresh(widgetList) && fresh(gui)
      ensures overlay.None? ==>
                currentOverlay == None && widgets == None && listening == {} &&
                widgetList.groups == [] && widgetList.rows == map[] &&
                widgetList.titles == map[] && widgetList.expanded == map[]
      ensures overlay.Some? ==> currentOverlay == overlay && widgets.Some?
      ensures overlay.Some? && GroupsSpecified(GroupNames(is3D), display, opts) ==>
                listening == {overlay.value} && Shows(GroupNames(is3D), titles, display, opts, 0, None, map[])
    {
      this.is3D := is3D;
      widgetList := new WidgetList();
      gui := new GuiBuilder();
      currentOverlay := None;
      widgets := None;
      listening := {};
      new;
      var _ := SelectedOverlayChanged(overlay, overlays, display, opts, titles);
    }

    /** The panel shows groups `gs`, built in order from handle `start`, for the settings in
        `display` and `opts`, titled `titles` and expanded as they were for `last`. */
    predicate Shows(gs: seq<string>, titles: seq<string>, display: TargetTables, opts: TargetTables, start: nat,
                    last: Option<OverlayId>, before: map<string, bool>)
      reads this, widgetList, gui
    {
      GroupsSpecified(gs, display, opts) && widgets.Some? && widgetList.groups == gs &&
      widgetList.rows == ShowGroups(gs, display, opts, start).rows &&
      widgets.value == ShowGroups(gs, display, opts, start).widgets &&
      gui.next == ShowGroups(gs, display, opts, start).next &&
      TablesShow(gs, titles, last, before, widgetList.titles, widgetList.expanded)
    }

    /** One pass of the property loop of `updateWidgets`. */
    method AddProperty(p: Prop, res: Resolved, acc: Acc) returns (acc2: Acc)
      requires p in res.specs && acc.next == gui.next
      modifies gui
      ensures acc2 == Step(acc, p, res) && gui.next == acc2.next
    {
      var pc := PropertyPieces(p, res);
      var built := gui.BuildAll(pc.specs);
      acc2 := Acc(acc.containers + pc.containers + built, acc.labels + pc.labels,
                  acc.tooltips + pc.tooltips, acc.widgets + pc.widgets + built, gui.next);
    }

    /** `updateWidgets(target, groupName)`: clears the group, runs the property loop and
        adds the zipped rows; returns the new widgets. A listed property without a spec
        raises `KeyError`; it is not skipped. */
    method UpdateWidgets(target: TargetTables, groupName: string) returns (r: Result<seq<Handle>>)
      modifies widgetList, gui
      ensures widgetList.groups == old(widgetList.groups) && widgetList.titles == old(widgetList.titles)
      ensures widgetList.expanded == old(widgetList.expanded)
      ensures widgetList.rows.Keys == old(widgetList.rows).Keys
      ensures var res := ResolvedFor(target, groupName);
              (r.Err? <==> groupName !in old(widgetList.rows) || !AllSpecified(res.props, res.specs)) &&
              (r.Err? ==> r.error == KeyError) &&
              (r.Ok? ==>
                 var acc := Assemble(res.props, res, old(gui.next));
                 r.value == acc.widgets && gui.next == acc.next &&
                 widgetList.rows == old(widgetList.rows)[groupName := RowsOf(acc)])
    {
      var cleared := widgetList.ClearGroup(groupName);
      if cleared.Err? {
        return Err(cleared.error);
      }
      var res := ResolvedFor(target, groupName);
      var all := RunProperties(res);
      if all.Err? {
        return Err(all.error);
      }
      AssembleAligned(res.props, res, old(gui.next));
      AddRows(groupName, all.value);
      r := Ok(all.value.widgets);
    }

    /** The property loop of `updateWidgets`: the four lists, or `KeyError` at the first
        property without a spec. */
    method RunProperties(res: Resolved) returns (r: Result<Acc>)
      modifies gui
      ensures r.Err? <==> !AllSpecified(res.props, res.specs)
      ensures r.Err? ==> r.error == KeyError
      ensures r.Ok? ==> r.value == Assemble(res.props, res, old(gui.next)) && gui.next == r.value.next
    {
      var all := Acc([], [], [], [], gui.next);
      var i := 0;
      while i < |res.props|
        invariant 0 <= i <= |res.props|
        invariant AllSpecified(res.props[..i], res.specs)
        invariant all == Assemble(res.props[..i], res, old(gui.next)) && all.next == gui.next
      {
        var p := res.props[i];
        if p !in res.specs {
          return Err(KeyError);
        }
        assert res.props[..i + 1][..i] == res.props[..i];
        all := AddProperty(p, res, all);
        i := i + 1;
      }
      assert res.props[..i] == res.props;
      r := Ok(all);
    }

    /** The zip loop of `updateWidgets`: one row per container, label and tooltip, with
        a missing label shown as `''`. */
    method AddRows(groupName: string, all: Acc)
      requires groupName in widgetList.rows && widgetList.rows[groupName] == []
      modifies widgetList
      ensures widgetList.rows == old(widgetList.rows)[groupName := RowsOf(all)]
      ensures widgetList.groups == old(widgetList.groups) && widgetList.titles == old(widgetList.titles)
      ensures widgetList.expanded == old(widgetList.expanded)
    {
      ghost var target := RowsOf(all);
      var n := Min3(|all.containers|, |all.labels|, |all.tooltips|);
      var i := 0;
      while i < n
        invariant 0 <= i <= n
        invariant widgetList.rows == old(widgetList.rows)[groupName := target[..i]]
        invariant widgetList.groups == old(widgetList.groups) && widgetList.titles == old(widgetList.titles)
        invariant widgetList.expanded == old(widgetList.expanded)
      {
        var caption := if all.labels[i].None? then "" else all.labels[i].value;
        widgetList.AddWidget(groupName, Row(all.containers[i], caption, all.tooltips[i]));
        assert target[..i + 1] == target[..i] + [target[i]];
        i := i + 1;
      }
      assert target[..n] == target;
    }

    /** The `IsExpanded` loop: the state of every group, or `KeyError` at the first
        group the widget list does not have. */
    method ReadExpanded(gs: seq<string>) returns (r: Result<map<string, bool>>)
      ensures r.Ok? <==> forall j :: 0 <= j < |gs| ==> gs[j] in widgetList.expanded
      ensures r.Err? ==> r.error == KeyError
      ensures r.Ok? ==> forall j :: 0 <= j < |gs| ==> gs[j] in r.value && r.value[gs[j]] == widgetList.expanded[gs[j]]
    {
      var keep: map<string, bool> := map[];
      var i := 0;
      while i < |gs|
        invariant 0 <= i <= |gs|
        invariant forall j :: 0 <= j < i ==> gs[j] in widgetList.expanded
        invariant forall j :: 0 <= j < i ==> gs[j] in keep && keep[gs[j]] == widgetList.expanded[gs[j]]
      {
        var e := widgetList.IsExpanded(gs[i]);
        if e.Err? {
          return Err(e.error);
        }
        keep := keep[gs[i] := e.value];
        i := i + 1;
      }
      r := Ok(keep);
    }

    /** One group: added with its title, filled by `updateWidgets`, then expanded or
        collapsed. */
    method BuildGroup(g: string, title: string, display: TargetTables, opts: TargetTables, expand: bool)
      returns (r: Result<seq<Handle>>)
      modifies widgetList, gui
      ensures widgetList.groups == old(widgetList.groups) + [g]
      ensures widgetList.titles == old(widgetList.titles)[g := title]
      ensures widgetList.rows.Keys == old(widgetList.rows).Keys + {g}
      ensures r.Err? ==> r.error == KeyError
      ensures r.Ok? <==> GroupSpecified(g, display, opts)
      ensures r.Err? ==> widgetList.expanded == old(widgetList.expanded)
      ensures r.Ok? ==>
                var acc := GroupAcc(g, display, opts, old(gui.next));
                widgetList.expanded == old(widgetList.expanded)[g := expand] &&
                r.value == acc.widgets && gui.next == acc.next &&
                widgetList.rows == old(widgetList.rows)[g := RowsOf(acc)]
    {
      widgetList.AddGroup(g, title);
      ghost var added := widgetList.rows;
      r := UpdateWidgets(TargetFor(g, display, opts), g);
      if r.Ok? {
        assert added[g := RowsOf(GroupAcc(g, display, opts, old(gui.next)))] ==
               old(widgetList.rows)[g := RowsOf(GroupAcc(g, display, opts, old(gui.next)))];
        widgetList.Expand(g, expand);
      }
    }

    /** One turn of the group loop: the widgets of group `gs[i]` added after the first `i`,
        whose building started from handle `start`. */
    method AddGroup(gs: seq<string>, titles: seq<string>, display: TargetTables, opts: TargetTables,
                    keep: map<string, bool>, i: nat, ghost start: nat) returns (r: Result<()>)
      requires |titles| == |gs| && i < |gs|
      requires forall j :: 0 <= j < |gs| ==> gs[j] in keep
      requires GroupsSpecified(gs[..i], display, opts)
      requires widgetList.groups == gs[..i] && widgets.Some?
      requires widgets.value == ShowGroups(gs[..i], display, opts, start).widgets
      requires widgetList.rows == ShowGroups(gs[..i], display, opts, start).rows
      requires gui.next == ShowGroups(gs[..i], display, opts, start).next
      requires widgetList.titles == TitleMap(gs[..i], titles[..i])
      requires widgetList.expanded == ExpandMap(gs[..i], keep)
      modifies this`widgets, widgetList, gui
      ensures r.Err? ==> r.error == KeyError
      ensures widgets.Some?
      ensures r.Ok? <==> GroupSpecified(gs[i], display, opts)
      ensures r.Ok? ==>
                GroupsSpecified(gs[..i + 1], display, opts) &&
                widgetList.groups == gs[..i + 1] && widgets.value.Keys == GroupKeys(gs[..i + 1]) &&
                widgetList.titles == TitleMap(gs[..i + 1], titles[..i + 1]) &&
                widgetList.expanded == ExpandMap(gs[..i + 1], keep) &&
                widgetList.rows.Keys == NameSet(gs[..i + 1]) &&
                widgets.value == ShowGroups(gs[..i + 1], display, opts, start).widgets &&
                widgetList.rows == ShowGroups(gs[..i + 1], display, opts, start).rows &&
                gui.next == ShowGroups(gs[..i + 1], display, opts, start).next
    {
      var g := gs[i];
      var built := BuildGroup(g, titles[i], display, opts, keep[g]);
      if built.Err? {
        return Err(built.error);
      }
      widgets := Some(widgets.value[Group(g) := built.value]);
      GroupStep(gs, titles, keep, i);
      ShowStep(gs, display, opts, start, i);
      ShowGroupsKeys(gs[..i + 1], display, opts, start);
      r := Ok(());
    }

    /** The group loop of `__selectedOverlayChanged`, on a cleared widget list. */
    method BuildGroups(gs: seq<string>, titles: seq<string>, display: TargetTables, opts: TargetTables,
                       keep: map<string, bool>) returns (r: Result<()>)
      requires |titles| == |gs|
      requires forall j :: 0 <= j < |gs| ==> gs[j] in keep
      requires widgets == Some(map[])
      requires widgetList.groups == [] && widgetList.titles == map[] && widgetList.expanded == map[]
      requires widgetList.rows == map[]
      modifies this`widgets, widgetList, gui
      ensures r.Err? ==> r.error == KeyError
      ensures widgets.Some?
      ensures r.Ok? <==> GroupsSpecified(gs, display, opts)
      ensures r.Ok? ==>
                widgetList.groups == gs && widgets.value.Keys == GroupKeys(gs) &&
                widgetList.titles == TitleMap(gs, titles) && widgetList.expanded == ExpandMap(gs, keep) &&
                widgetList.rows.Keys == NameSet(gs)
      ensures r.Ok? ==>
                widgetList.rows == ShowGroups(gs, display, opts, old(gui.next)).rows &&
                widgets.value == ShowGroups(gs, display, opts, old(gui.next)).widgets &&
                gui.next == ShowGroups(gs, display, opts, old(gui.next)).next
    {
      var i := 0;
      while i < |gs|
        invariant 0 <= i <= |gs|
        invariant GroupsSpecified(gs[..i], display, opts)
        invariant widgetList.groups == gs[..i] && widgets.Some? && widgets.value.Keys == GroupKeys(gs[..i])
        invariant widgetList.titles == TitleMap(gs[..i], titles[..i])
        invariant widgetList.expanded == ExpandMap(gs[..i], keep)
        invariant widgetList.rows.Keys == NameSet(gs[..i])
        invariant widgets.value == ShowGroups(gs[..i], display, opts, old(gui.next)).widgets
        invariant widgetList.rows == ShowGroups(gs[..i], display, opts, old(gui.next)).rows
        invariant gui.next == ShowGroups(gs[..i], display, opts, old(gui.next)).next
      {
        var added := AddGroup(gs, titles, display, opts, keep, i, old(gui.next));
        if added.Err? {
          return added;
        }
        i := i + 1;
      }
      assert gs[..i] == gs && titles[..i] == titles;
      r := Ok(());
    }

    /** `__selectedOverlayChanged`: with no overlay selected everything is cleared; the
        same overlay again changes nothing; any other overlay is shown afresh. */
    method SelectedOverlayChanged(overlay: Option<OverlayId>, overlays: seq<OverlayId>, display: TargetTables,
                                  opts: TargetTables, titles: seq<string>) returns (r: Result<()>)
      requires |titles| == |GroupNames(is3D)|
      modifies this, widgetList, gui
      ensures r.Err? ==> r.error == KeyError
      ensures overlay.None? ==>
                r.Ok? && currentOverlay == None && widgets == None && listening == old(listening) &&
                widgetList.groups == [] && widgetList.rows == map[] &&
                widgetList.titles == map[] && widgetList.expanded == map[] && gui.next == old(gui.next)
      ensures overlay.Some? && overlay == old(currentOverlay) ==>
                r.Ok? && unchanged(this) && unchanged(widgetList) && unchanged(gui)
      ensures overlay.Some? && overlay != old(currentOverlay) ==>
                currentOverlay == overlay && widgets.Some? &&
                (r.Ok? <==> ExpansionKnown(old(currentOverlay), old(widgetList.expanded), GroupNames(is3D)) &&
                            GroupsSpecified(GroupNames(is3D), display, opts))
      ensures overlay.Some? && overlay != old(currentOverlay) && r.Ok? ==>
                listening == ListenersAfter(old(listening), old(currentOverlay), overlays, overlay.value) &&
                Shows(GroupNames(is3D), titles, display, opts, old(gui.next), old(currentOverlay), old(widgetList.expanded))
    {
      if overlay.None? {
        currentOverlay := None;
        widgets := None;
        widgetList.Clear();
        return Ok(());
      }
      if overlay == currentOverlay {
        return Ok(());
      }
      r := ShowOverlay(overlay.value, overlays, display, opts, titles);
    }

    /** `keepExpanded`: every group expanded when there was no previous overlay, and
        otherwise as the widget list has it. */
    method KeepStates(gs: seq<string>, last: Option<OverlayId>) returns (r: Result<map<string, bool>>)
      ensures r.Err? ==> r.error == KeyError
      ensures r.Ok? <==> ExpansionKnown(last, widgetList.expanded, gs)
      ensures r.Ok? ==>
                forall j :: 0 <= j < |gs| ==>
                  gs[j] in r.value && r.value[gs[j]] == KeepExpanded(last, widgetList.expanded, gs[j])
    {
      if last.None? {
        return Ok(map g | g in gs :: true);
      }
      r := ReadExpanded(gs);
    }

    /** The groups for a newly selected overlay: the listener moves to its display, the
        widget list is cleared and every group is rebuilt with the expansion it had for
        the previous overlay (expanded when there was none). */
    method ShowOverlay(overlay: OverlayId, overlays: seq<OverlayId>, display: TargetTables,
                       opts: TargetTables, titles: seq<string>) returns (r: Result<()>)
      requires |titles| == |GroupNames(is3D)|
      modifies this, widgetList, gui
      ensures r.Err? ==> r.error == KeyError
      ensures currentOverlay == Some(overlay) && widgets.Some?
      ensures var gs := GroupNames(is3D);
              (r.Ok? <==> ExpansionKnown(old(currentOverlay), old(widgetList.expanded), gs) &&
                          GroupsSpecified(gs, display, opts)) &&
              (r.Ok? ==>
                 listening == ListenersAfter(old(listening), old(currentOverlay), overlays, overlay) &&
                 widgets.value.Keys == GroupKeys(gs) && widgetList.rows.Keys == NameSet(gs) &&
                 Shows(gs, titles, display, opts, old(gui.next), old(currentOverlay), old(widgetList.expanded)))
    {
      var last := currentOverlay;
      currentOverlay := Some(overlay);
      widgets := Some(map[]);
      var gs := GroupNames(is3D);
      if last.Some? && last.value in overlays {
        listening := listening - {last.value};
      }
      var keep := KeepStates(gs, last);
      if keep.Err? {
        return Err(keep.error);
      }
      listening := listening + {overlay};
      GroupNamesDistinct(is3D);
      r := RebuildGroups(gs, titles, display, opts, keep.value, last, old(widgetList.expanded));
    }

    /** The end of `__selectedOverlayChanged`: the widget list is cleared and the groups are
        built afresh, each expanded as `keep` holds for the previous overlay `last`. */
    method RebuildGroups(gs: seq<string>, titles: seq<string>, display: TargetTables, opts: TargetTables,
                         keep: map<string, bool>, ghost last: Option<OverlayId>, ghost before: map<string, bool>)
      returns (r: Result<()>)
      requires |titles| == |gs| && DistinctNames(gs) && widgets == Some(map[])
      requires forall j :: 0 <= j < |gs| ==> gs[j] in keep && keep[gs[j]] == KeepExpanded(last, before, gs[j])
      modifies this`widgets, widgetList, gui
      ensures r.Err? ==> r.error == KeyError
      ensures widgets.Some?
      ensures r.Ok? <==> GroupsSpecified(gs, display, opts)
      ensures r.Ok? ==>
                widgets.value.Keys == GroupKeys(gs) && widgetList.rows.Keys == NameSet(gs) &&
                Shows(gs, titles, display, opts, old(gui.next), last, before)
    {
      widgetList.Clear();
      r := BuildGroups(gs, titles, display, opts, keep);
      if r.Ok? {
        TablesShown(gs, titles, keep, last, before);
      }
    }

    /** `__ovlTypeChanged` as intended: the `opts` group (and `3d`, when shown) is
        rebuilt for the new opts object and retitled; other groups keep their widgets. */
    method OvlTypeChanged(opts: TargetTables, title: string) returns (r: Result<()>)
      requires widgets.Some?
      modifies this`widgets, widgetList, gui
      ensures r.Err? ==> r.error == KeyError
      ensures r.Ok? <==> "opts" in old(widgetList.rows) && "opts" in old(widgetList.titles) &&
                         AllSpecified(opts.plain.props, opts.plain.specs) &&
                         (Group("3d") in old(widgets.value) ==>
                            "3d" in old(widgetList.rows) && AllSpecified(opts.threeD.props, opts.threeD.specs))
      ensures r.Ok? ==>
                widgets.Some? && widgets.value.Keys == old(widgets.value.Keys) + {Group("opts")} &&
                AllSpecified(opts.plain.props, opts.plain.specs) &&
                widgets.value[Group("opts")] == Assemble(opts.plain.props, opts.plain, old(gui.next)).widgets &&
                widgetList.titles == old(widgetList.titles)["opts" := title] &&
                forall k :: k in old(widgets.value) && k != Group("opts") && k != Group("3d") ==>
                  widgets.value[k] == old(widgets.value[k])
      ensures r.Ok? ==>
                var a := Assemble(opts.plain.props, opts.plain, old(gui.next));
                widgetList.groups == old(widgetList.groups) && widgetList.expanded == old(widgetList.expanded) &&
                (Group("3d") !in old(widgets.value) ==>
                   widgets == Some(Rekey(old(widgets.value), a.widgets)) &&
                   widgetList.rows == old(widgetList.rows)["opts" := RowsOf(a)] && gui.next == a.next) &&
                (Group("3d") in old(widgets.value) ==>
                   AllSpecified(opts.threeD.props, opts.threeD.specs) &&
                   var a3 := Assemble(opts.threeD.props, opts.threeD, a.next);
                   widgets == Some(Rekey(old(widgets.value), a.widgets)[Group("3d") := a3.widgets]) &&
                   widgetList.rows == old(widgetList.rows)["opts" := RowsOf(a)]["3d" := RowsOf(a3)] &&
                   gui.next == a3.next)
    {
      var built := UpdateWidgets(opts, "opts");
      if built.Err? {
        return Err(built.error);
      }
      widgets := Some(Rekey(widgets.value, built.value));
      var renamed := widgetList.RenameGroup("opts", title);
      if renamed.Err? {
        return Err(renamed.error);
      }
      if Group("3d") in widgets.value {
        var built3D := UpdateWidgets(opts, "3d");
        if built3D.Err? {
          return Err(built3D.error);
        }
        widgets := Some(widgets.value[Group("3d") := built3D.value]);
      }
      r := Ok(());
    }

    /** `__ovlTypeChanged` as written: the rebuilt list is stored under the opts object
        `optsId` instead of `'opts'`, so the `opts` entry keeps the old opts' widgets. */
    method OvlTypeChangedAsWritten(opts: TargetTables, optsId: nat, title: string) returns (r: Result<()>)
      requires widgets.Some?
      modifies this`widgets, widgetList, gui
      ensures r.Err? ==> r.error == KeyError
      ensures r.Ok? ==>
                widgets.Some? && widgets.value.Keys == old(widgets.value.Keys) + {OptsObject(optsId)} &&
                AllSpecified(opts.plain.props, opts.plain.specs) &&
                widgets.value[OptsObject(optsId)] == Assemble(opts.plain.props, opts.plain, old(gui.next)).widgets &&
                (Group("opts") in old(widgets.value) ==>
                   widgets.value[Group("opts")] == old(widgets.value[Group("opts")]))
      ensures r.Ok? <==> "opts" in old(widgetList.rows) && "opts" in old(widgetList.titles) &&
                         AllSpecified(opts.plain.props, opts.plain.specs) &&
                         (Group("3d") in old(widgets.value) ==>
                            "3d" in old(widgetList.rows) && AllSpecified(opts.threeD.props, opts.threeD.specs))
      ensures r.Ok? ==>
                var a := Assemble(opts.plain.props, opts.plain, old(gui.next));
                widgetList.groups == old(widgetList.groups) && widgetList.expanded == old(widgetList.expanded) &&
                widgetList.titles == old(widgetList.titles)["opts" := title] &&
                (Group("3d") !in old(widgets.value) ==>
                   widgets == Some(RekeyAsWritten(old(widgets.value), optsId, a.widgets)) &&
                   widgetList.rows == old(widgetList.rows)["opts" := RowsOf(a)] && gui.next == a.next) &&
                (Group("3d") in old(widgets.value) ==>
                   AllSpecified(opts.threeD.props, opts.threeD.specs) &&
                   var a3 := Assemble(opts.threeD.props, opts.threeD, a.next);
                   widgets == Some(RekeyAsWritten(old(widgets.value), optsId, a.widgets)[Group("3d") := a3.widgets]) &&
                   widgetList.rows == old(widgetList.rows)["opts" := RowsOf(a)]["3d" := RowsOf(a3)] &&
                   gui.next == a3.next)
    {
      var built := UpdateWidgets(opts, "opts");
      if built.Err? {
        return Err(built.error);
      }
      widgets := Some(RekeyAsWritten(widgets.value, optsId, built.value));
      var renamed := widgetList.RenameGroup("opts", title);
      if renamed.Err? {
        return Err(renamed.error);
      }
      if Group("3d") in widgets.value {
        var built3D := UpdateWidgets(opts, "3d");
        if built3D.Err? {
          return Err(built3D.error);
        }
        widgets := Some(widgets.value[Group("3d") := built3D.value]);
      }
      r := Ok(());
    }
  }
}
