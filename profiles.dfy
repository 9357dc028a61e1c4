/** Mouse and keyboard interaction profiles. A `Profile` turns the events of a view's
    canvases into calls of mode-specific handler methods, found through temporary modes
    (chosen by the held modifier keys) and alternate handlers. It also keeps track of where
    the mouse was pressed, moved and released. A `ProfileManager` swaps one profile for
    another, and a `PlotPanelEventManager` connects a profile to plot canvases. */
module Profiles {
  import opened Wrappers
  import PyText

  /** A canvas that events come from, by identity. */
  type Source = nat

  /** The `mode` property of a profile; `None` when the profile has no modes. */
  type Mode = Option<string>

  // ---------------------------------------------------------------- events

  /** The `wx` event types with an entry in the profile's event table, and one for all
      others. */
  datatype EventType =
    | LeftDown | MiddleDown | RightDown | LeftUp | MiddleUp | RightUp
    | Motion | MouseWheel | EnterWindow | LeaveWindow | CharEvent | OtherEvent

  predicate IsButtonDown(t: EventType)
  {
    t == LeftDown || t == MiddleDown || t == RightDown
  }

  predicate IsButtonUp(t: EventType)
  {
    t == LeftUp || t == MiddleUp || t == RightUp
  }

  /** What `GetButton()` reports; `BtnOther` stands for no button, any button and the
      auxiliary buttons. */
  datatype ButtonCode = BtnLeft | BtnRight | BtnMiddle | BtnOther

  /** A `wx` mouse or keyboard event: its type, source canvas, reported button, held
      buttons, held modifier keys, whether it is a drag, its position in window
      coordinates, the client height of its canvas, and the display-space point the
      canvas maps that position to. */
  datatype GuiEvent = GuiEvent(
    evType: EventType,
    source: Source,
    button: ButtonCode,
    leftIsDown: bool,
    middleIsDown: bool,
    rightIsDown: bool,
    altDown: bool,
    controlDown: bool,
    shiftDown: bool,
    dragging: bool,
    x: int,
    y: int,
    clientHeight: int,
    world: seq<int>)

  datatype Point = Point(x: int, y: int)

  /** Display-space coordinates on a canvas view; data coordinates on a plot. */
  datatype CanvasPos = World(coords: seq<int>) | Data(xdata: Option<int>, ydata: Option<int>)

  /** The pair `(mouseLoc, canvasLoc)` an event manager reports. */
  datatype Location = Location(mouse: Option<Point>, canvas: Option<CanvasPos>)

  /** A `matplotlib` event: its name, pixel position, data position and `wx` event. */
  datatype MplEvent = MplEvent(name: string, x: int, y: int, xdata: Option<int>, ydata: Option<int>, guiEvent: GuiEvent)

  /** Where a canvas view's event manager puts an event: the window position with y
      flipped to count from the bottom of the canvas, and the display-space point. */
  function CanvasLocation(ev: GuiEvent): (l: Location)
    ensures l.mouse.Some? && l.mouse.value.x == ev.x && l.mouse.value.y + ev.y == ev.clientHeight
    ensures l.canvas == Some(World(ev.world))
  {
    Location(Some(Point(ev.x, ev.clientHeight - ev.y)), Some(World(ev.world)))
  }

  /** Where a plot's event manager puts an event: at the most recent `matplotlib` event,
      or nowhere before the first one. */
  function PlotLocation(last: Option<MplEvent>): (l: Location)
    ensures last.None? <==> l == Location(None, None)
    ensures last.Some? ==> l.mouse == Some(Point(last.value.x, last.value.y))
    ensures last.Some? ==> l.canvas == Some(Data(last.value.xdata, last.value.ydata))
  {
    match last
    case None => Location(None, None)
    case Some(e) => Location(Some(Point(e.x, e.y)), Some(Data(e.xdata, e.ydata)))
  }

  // ---------------------------------------------------------------- modifier keys

  datatype ModKey = AltKey | ControlKey | ShiftKey

  /** The key of the temporary-mode table: nothing, one key code, or a tuple of them. */
  datatype KeyMod = NoKey | One(key: ModKey) | Several(keys: seq<ModKey>)

  /** The table in `__getTempMode` from the held modifiers to the key. A tuple always
      lists its keys as alt, control, shift. */
  function ModifierKey(alt: bool, ctrl: bool, shift: bool): (k: KeyMod)
    ensures k == NoKey <==> !alt && !ctrl && !shift
    ensures k.One? <==> (alt && !ctrl && !shift) || (!alt && ctrl && !shift) || (!alt && !ctrl && shift)
    ensures k.Several? ==> |k.keys| >= 2
  {
    if alt then
      if ctrl then
        if shift then Several([AltKey, ControlKey, ShiftKey]) else Several([AltKey, ControlKey])
      else if shift then Several([AltKey, ShiftKey]) else One(AltKey)
    else if ctrl then
      if shift then Several([ControlKey, ShiftKey]) else One(ControlKey)
    else if shift then One(ShiftKey) else NoKey
  }

  /** Which modifiers a key stands for. */
  function Held(k: KeyMod): (bool, bool, bool)
  {
    match k
    case NoKey => (false, false, false)
    case One(m) => (m == AltKey, m == ControlKey, m == ShiftKey)
    case Several(ms) => (AltKey in ms, ControlKey in ms, ShiftKey in ms)
  }

  /** The key determines the held modifiers, so no two combinations share a key. */
  lemma ModifierKeyDecodes(alt: bool, ctrl: bool, shift: bool)
    ensures Held(ModifierKey(alt, ctrl, shift)) == (alt, ctrl, shift)
  {
    var k := ModifierKey(alt, ctrl, shift);
    if k.Several? {
      assert AltKey in k.keys <==> alt;
      assert ControlKey in k.keys <==> ctrl;
      assert ShiftKey in k.keys <==> shift;
    }
  }

  // ---------------------------------------------------------------- handler lookup

  /** What handler lookup reads from a profile: its current mode, its temporary-mode and
      alternate-handler tables, the names of the handler methods its class defines, and
      its event targets. */
  datatype Config = Config(
    mode: Mode,
    tempModes: map<(Mode, KeyMod), Mode>,
    altHandlers: map<(Mode, string), (Mode, string)>,
    handlers: set<string>,
    targets: seq<Source>)

  /** `__getTempMode`: the entry for the current mode and the held modifiers, or `None`. */
  function TempMode(c: Config, ev: GuiEvent): (m: Mode)
    ensures m.Some? ==> (c.mode, ModifierKey(ev.altDown, ev.controlDown, ev.shiftDown)) in c.tempModes
  {
    var key := (c.mode, ModifierKey(ev.altDown, ev.controlDown, ev.shiftDown));
    if key in c.tempModes then c.tempModes[key] else None
  }

  /** The mode a lookup uses: an explicit mode wins, then the temporary mode, then the
      current mode. */
  function Resolve(current: Mode, temp: Mode, mode: Mode): (m: Mode)
    ensures mode.Some? ==> m == mode
    ensures mode.None? && temp.Some? ==> m == temp
    ensures mode.None? && temp.None? ==> m == current
  {
    if mode.Some? then mode else if temp.Some? then temp else current
  }

  /** The method name looked up for a mode and an event type: `_{mode}Mode{evType}`, or
      without a mode `_` and the event type with its first letter in lower case (an empty
      event type has no first letter: `IndexError`). */
  function HandlerName(mode: Mode, evType: string): (r: Result<string>)
    ensures r.Err? <==> mode.None? && |evType| == 0
    ensures r.Err? ==> r.error == IndexError
    ensures r.Ok? ==> |r.value| > 0 && r.value[0] == '_'
    ensures r.Ok? && mode.Some? ==> |r.value| == |mode.value| + 5 + |evType| && r.value[|r.value| - |evType|..] == evType
    ensures r.Ok? && mode.None? ==> |r.value| == |evType| + 1 && r.value[2..] == evType[1..]
  {
    match mode
    case Some(m) => Ok("_" + m + "Mode" + evType)
    case None =>
      if |evType| == 0 then Err(IndexError)
      else Ok("_" + PyText.Lower(evType[..1]) + evType[1..])
  }

  /** The default handler for a resolved (mode, event type) pair: the method of that
      name if the class defines one. */
  function Default(c: Config, k: (Mode, string)): (r: Result<Option<string>>)
    ensures r.Ok? && r.value.Some? ==> r.value.value in c.handlers && HandlerName(k.0, k.1) == Ok(r.value.value)
    ensures r.Err? ==> r == Err(IndexError)
  {
    match HandlerName(k.0, k.1)
    case Err(e) => Err(e)
    case Ok(n) => Ok(if n in c.handlers then Some(n) else None)
  }

  /** Where an alternate handler sends a resolved pair; a pair without one stays put. */
  function Step(c: Config, temp: Mode, k: (Mode, string)): (Mode, string)
  {
    if k in c.altHandlers then
      var (altMode, altEvType) := c.altHandlers[k];
      (Resolve(c.mode, temp, altMode), altEvType)
    else k
  }

  /** `n` steps along the chain of alternate handlers. */
  function Walk(c: Config, temp: Mode, k: (Mode, string), n: nat): (Mode, string)
    decreases n
  {
    if n == 0 then k else Walk(c, temp, Step(c, temp, k), n - 1)
  }

  /** The recursion of `__getHandler` from a resolved pair. `visited` holds the pairs whose
      alternate handler has been followed already; reaching one of them again means that
      Python recurses until `RecursionError`. */
  function LookupKey(c: Config, temp: Mode, k: (Mode, string), visited: set<(Mode, string)>): (r: Result<Option<string>>)
    requires visited <= c.altHandlers.Keys
    ensures r.Ok? && r.value.Some? ==> r.value.value in c.handlers
    ensures r.Err? ==> r == Err(RecursionError) || r == Err(IndexError)
    decreases |c.altHandlers.Keys - visited|
  {
    if k in c.altHandlers then
      if k in visited then Err(RecursionError)
      else
        assert c.altHandlers.Keys - (visited + {k}) < c.altHandlers.Keys - visited;
        LookupKey(c, temp, Step(c, temp, k), visited + {k})
    else Default(c, k)
  }

  /** `__getHandler(ev, evType, mode)`: the name of the handler method, `None` when the
      class has none, or the error the lookup raises. */
  function Lookup(c: Config, temp: Mode, evType: string, mode: Mode): Result<Option<string>>
  {
    LookupKey(c, temp, (Resolve(c.mode, temp, mode), evType), {})
  }

  /** `__getHandler(ev, evType)` with the temporary mode of `ev`. */
  function GetHandler(c: Config, ev: GuiEvent, evType: string): Result<Option<string>>
  {
    Lookup(c, TempMode(c, ev), evType, None)
  }

  lemma {:induction false} WalkSucc(c: Config, temp: Mode, k: (Mode, string), n: nat)
    ensures Walk(c, temp, k, n + 1) == Step(c, temp, Walk(c, temp, k, n))
    decreases n
  {
    if n > 0 {
      WalkSucc(c, temp, Step(c, temp, k), n - 1);
    }
  }

  lemma {:induction false} WalkAdd(c: Config, temp: Mode, k: (Mode, string), a: nat, b: nat)
    ensures Walk(c, temp, k, a + b) == Walk(c, temp, Walk(c, temp, k, a), b)
    decreases a
  {
    if a > 0 {
      WalkAdd(c, temp, Step(c, temp, k), a - 1, b);
    }
  }

  /** Once the chain comes back to a pair it has passed, with every pair so far having an
      alternate handler, it goes round that cycle for ever. */
  lemma {:induction false} CycleStays(c: Config, temp: Mode, s: (Mode, string), i: nat, j: nat, n: nat)
    requires i < j && Walk(c, temp, s, i) == Walk(c, temp, s, j)
    requires forall m :: 0 <= m < j ==> Walk(c, temp, s, m) in c.altHandlers
    ensures Walk(c, temp, s, n) in c.altHandlers
    decreases n
  {
    if n >= j {
      WalkAdd(c, temp, s, j, n - j);
      WalkAdd(c, temp, s, i, n - j);
      CycleStays(c, temp, s, i, j, i + (n - j));
    }
  }

  /** The first `j` pairs of the chain from `s`. */
  function PathSet(c: Config, temp: Mode, s: (Mode, string), j: nat): set<(Mode, string)>
  {
    if j == 0 then {} else PathSet(c, temp, s, j - 1) + {Walk(c, temp, s, j - 1)}
  }

  lemma {:induction false} PathSetMember(c: Config, temp: Mode, s: (Mode, string), j: nat, k: (Mode, string))
    requires k in PathSet(c, temp, s, j)
    ensures exists i: nat :: i < j && Walk(c, temp, s, i) == k
  {
    if Walk(c, temp, s, j - 1) != k {
      PathSetMember(c, temp, s, j - 1, k);
    }
  }

  /** Each pair of the chain has an alternate handler until the first that has none. */
  lemma {:induction false} PathSetHandled(c: Config, temp: Mode, s: (Mode, string), j: nat, m: nat)
    requires PathSet(c, temp, s, j) <= c.altHandlers.Keys && m < j
    ensures Walk(c, temp, s, m) in c.altHandlers
  {
    if m < j - 1 {
      PathSetHandled(c, temp, s, j - 1, m);
    }
  }

  /** Coming back to a passed pair, with every passed pair having an alternate handler,
      the chain never leaves the alternate handlers. */
  lemma CycleForever(c: Config, temp: Mode, s: (Mode, string), j: nat)
    requires PathSet(c, temp, s, j) <= c.altHandlers.Keys && Walk(c, temp, s, j) in PathSet(c, temp, s, j)
    ensures forall n :: Walk(c, temp, s, n) in c.altHandlers
  {
    PathSetMember(c, temp, s, j, Walk(c, temp, s, j));
    var i: nat :| i < j && Walk(c, temp, s, i) == Walk(c, temp, s, j);
    forall m | 0 <= m < j ensures Walk(c, temp, s, m) in c.altHandlers {
      PathSetHandled(c, temp, s, j, m);
    }
    forall n: nat ensures Walk(c, temp, s, n) in c.altHandlers {
      CycleStays(c, temp, s, i, j, n);
    }
  }

  lemma {:induction false} ChainFrom(c: Config, temp: Mode, s: (Mode, string), j: nat, visited: set<(Mode, string)>)
    requires visited == PathSet(c, temp, s, j) && visited <= c.altHandlers.Keys
    ensures var r := LookupKey(c, temp, Walk(c, temp, s, j), visited);
      (r == Err(RecursionError) ==> forall n :: Walk(c, temp, s, n) in c.altHandlers) &&
      (r != Err(RecursionError) ==> exists n :: Walk(c, temp, s, n) !in c.altHandlers && r == Default(c, Walk(c, temp, s, n)))
    decreases |c.altHandlers.Keys - visited|
  {
    var cur := Walk(c, temp, s, j);
    if cur !in c.altHandlers {
    } else if cur in visited {
      CycleForever(c, temp, s, j);
    } else {
      WalkSucc(c, temp, s, j);
      assert c.altHandlers.Keys - (visited + {cur}) < c.altHandlers.Keys - visited;
      ChainFrom(c, temp, s, j + 1, visited + {cur});
    }
  }

  /** `__getHandler` follows alternate handlers from the resolved pair until it reaches a
      pair without one and takes that pair's default handler; it fails with
      `RecursionError` exactly when the chain never reaches such a pair. */
  lemma LookupFollowsChain(c: Config, temp: Mode, evType: string, mode: Mode)
    ensures var s := (Resolve(c.mode, temp, mode), evType);
      (Lookup(c, temp, evType, mode) == Err(RecursionError) <==> forall n :: Walk(c, temp, s, n) in c.altHandlers) &&
      (Lookup(c, temp, evType, mode) != Err(RecursionError) ==>
         exists n :: Walk(c, temp, s, n) !in c.altHandlers && Lookup(c, temp, evType, mode) == Default(c, Walk(c, temp, s, n)))
  {
    var s := (Resolve(c.mode, temp, mode), evType);
    ChainFrom(c, temp, s, 0, {});
  }

  /** With an alternate handler registered for the resolved pair, the default handler of
      that pair plays no part: the lookup is the lookup of the alternate pair. */
  lemma AltHandlerFirst(c: Config, temp: Mode, evType: string, mode: Mode)
    requires (Resolve(c.mode, temp, mode), evType) in c.altHandlers
    requires var (altMode, altEvType) := c.altHandlers[(Resolve(c.mode, temp, mode), evType)];
      (Resolve(c.mode, temp, altMode), altEvType) !in c.altHandlers
    ensures var (altMode, altEvType) := c.altHandlers[(Resolve(c.mode, temp, mode), evType)];
      Lookup(c, temp, evType, mode) == Default(c, (Resolve(c.mode, temp, altMode), altEvType))
  {
    var k := (Resolve(c.mode, temp, mode), evType);
    assert LookupKey(c, temp, k, {}) == LookupKey(c, temp, Step(c, temp, k), {k});
  }

  /** Without alternate handlers a lookup never fails with `RecursionError`, and finds the
      method named after the resolved mode and event type when the class defines it. */
  lemma NoAltHandlers(c: Config, temp: Mode, evType: string, mode: Mode)
    requires c.altHandlers == map[]
    ensures Lookup(c, temp, evType, mode) == Default(c, (Resolve(c.mode, temp, mode), evType))
  {
  }

  // ---------------------------------------------------------------- class tables

  /** `profilemap.tempModeMap.get(cls, {})` and the same for the alternate handlers. */
  function TableOf<K, V>(tables: map<string, map<K, V>>, cls: string): map<K, V>
  {
    if cls in tables then tables[cls] else map[]
  }

  /** The table a profile ends up with: the classes of its method resolution order
      `mro` (most derived first) are visited from the last to the first, each one's
      entries overwriting what came before. */
  function Layered<K, V>(tables: map<string, map<K, V>>, mro: seq<string>): map<K, V>
  {
    if |mro| == 0 then map[] else Layered(tables, mro[1..]) + TableOf(tables, mro[0])
  }

  lemma LayeredStep<K, V>(tables: map<string, map<K, V>>, mro: seq<string>, i: nat)
    requires i < |mro|
    ensures Layered(tables, mro[i..]) == Layered(tables, mro[i + 1..]) + TableOf(tables, mro[i])
  {
    assert mro[i..][1..] == mro[i + 1..];
  }

  lemma MapAddAssoc<K, V>(a: map<K, V>, b: map<K, V>, c: map<K, V>)
    ensures (a + b) + c == a + (b + c)
  {
  }

  /** A key is in the profile's table exactly when one of its classes defines it. */
  lemma {:induction false} LayeredKeys<K, V>(tables: map<string, map<K, V>>, mro: seq<string>, k: K)
    ensures k in Layered(tables, mro) <==> exists i :: 0 <= i < |mro| && k in TableOf(tables, mro[i])
  {
    if |mro| > 0 {
      LayeredKeys(tables, mro[1..], k);
      if k in Layered(tables, mro[1..]) {
        var i :| 0 <= i < |mro[1..]| && k in TableOf(tables, mro[1..][i]);
        assert mro[1..][i] == mro[i + 1];
      }
      if exists i :: 0 <= i < |mro| && k in TableOf(tables, mro[i]) {
        var i :| 0 <= i < |mro| && k in TableOf(tables, mro[i]);
        if i > 0 {
          assert mro[1..][i - 1] == mro[i];
        }
      }
    }
  }

  /** The entry of the most derived class that defines a key is the one that counts. */
  lemma {:induction false} MostDerivedWins<K, V>(tables: map<string, map<K, V>>, mro: seq<string>, k: K, i: nat)
    requires i < |mro| && k in TableOf(tables, mro[i])
    requires forall j :: 0 <= j < i ==> k !in TableOf(tables, mro[j])
    ensures k in Layered(tables, mro) && Layered(tables, mro)[k] == TableOf(tables, mro[i])[k]
  {
    if i > 0 {
      assert mro[1..][i - 1] == mro[i];
      forall j | 0 <= j < i - 1 ensures k !in TableOf(tables, mro[1..][j]) {
        assert mro[1..][j] == mro[j + 1];
      }
      MostDerivedWins(tables, mro[1..], k, i - 1);
      assert k !in TableOf(tables, mro[0]);
    }
  }

  // ---------------------------------------------------------------- event handlers

  /** The positions a profile keeps: of the current press, of the last handled move (or
      the first press), of the last handled release, and the canvas of the last button
      event. */
  datatype Track = Track(
    mouseDown: Option<Point>,
    canvasDown: Option<CanvasPos>,
    lastMouse: Option<Point>,
    lastCanvasPos: Option<CanvasPos>,
    lastMouseUp: Option<Point>,
    lastCanvasUp: Option<CanvasPos>,
    lastCanvas: Option<Source>)

  const NoTrack := Track(None, None, None, None, None, None, None)

  /** What became of an event: dropped before any handler ran, or given to the named
      handler (`None` when the class has none), and whether `ev.Skip()` was called. */
  datatype Outcome = Ignored | Delivered(handler: Option<string>, skipped: bool)

  /** The outcome of an event with the positions kept after it. */
  datatype Reaction = Reaction(result: Result<Outcome>, track: Track)

  /** The button names `__getMouseButton` returns. */
  datatype Button = Left | Right | Middle

  function ButtonText(b: Button): string
  {
    match b
    case Left => "Left"
    case Right => "Right"
    case Middle => "Middle"
  }

  /** `__getMouseButton`: the reported button, or else the first held one of left, right
      and middle. */
  function MouseButton(ev: GuiEvent): (b: Option<Button>)
    ensures b == Some(Left) <==> ev.button == BtnLeft || (ev.button.BtnOther? && ev.leftIsDown)
    ensures b == Some(Right) <==> ev.button == BtnRight || (ev.button.BtnOther? && !ev.leftIsDown && ev.rightIsDown)
    ensures b == Some(Middle) <==>
      ev.button == BtnMiddle || (ev.button.BtnOther? && !ev.leftIsDown && !ev.rightIsDown && ev.middleIsDown)
    ensures b.None? <==> ev.button.BtnOther? && !ev.leftIsDown && !ev.rightIsDown && !ev.middleIsDown
  {
    if ev.button == BtnLeft then Some(Left)
    else if ev.button == BtnRight then Some(Right)
    else if ev.button == BtnMiddle then Some(Middle)
    else if ev.leftIsDown then Some(Left)
    else if ev.rightIsDown then Some(Right)
    else if ev.middleIsDown then Some(Middle)
    else None
  }

  /** `'{}MouseDown'.format(button)` and the like; Python formats a missing button as
      `None`. */
  function ButtonEvent(ev: GuiEvent, suffix: string): string
  {
    match MouseButton(ev)
    case None => "None" + suffix
    case Some(b) => ButtonText(b) + suffix
  }

  /** A handled move or drag records its position as the last one. */
  function Moved(t: Track, loc: Location): Track
  {
    t.(lastMouse := loc.mouse, lastCanvasPos := loc.canvas)
  }

  /** `__onMouseDown`: the press position is recorded (and taken as the last position if
      there is none yet) before the handler is looked up; `accepted` is what the handler
      returns. */
  function MouseDown(c: Config, t: Track, loc: Location, ev: GuiEvent, accepted: bool): Reaction
  {
    var pressed := t.(mouseDown := loc.mouse, canvasDown := loc.canvas,
                      lastMouse := if t.lastMouse.None? then loc.mouse else t.lastMouse,
                      lastCanvasPos := if t.lastCanvasPos.None? then loc.canvas else t.lastCanvasPos);
    match GetHandler(c, ev, ButtonEvent(ev, "MouseDown"))
    case Err(e) => Reaction(Err(e), pressed)
    case Ok(None) => Reaction(Ok(Delivered(None, true)), pressed)
    case Ok(Some(h)) => Reaction(Ok(Delivered(Some(h), !accepted)), Moved(pressed, loc))
  }

  /** `__onMouseUp`: the press is forgotten whether or not there is a handler; the release
      position is recorded only when there is one. */
  function MouseUp(c: Config, t: Track, loc: Location, ev: GuiEvent, accepted: bool): Reaction
  {
    var released := t.(mouseDown := None, canvasDown := None);
    match GetHandler(c, ev, ButtonEvent(ev, "MouseUp"))
    case Err(e) => Reaction(Err(e), t)
    case Ok(None) => Reaction(Ok(Delivered(None, true)), released)
    case Ok(Some(h)) =>
      Reaction(Ok(Delivered(Some(h), !accepted)), released.(lastMouseUp := loc.mouse, lastCanvasUp := loc.canvas))
  }

  /** `__onMouseDrag`: the event is always skipped. */
  function MouseDrag(c: Config, t: Track, loc: Location, ev: GuiEvent): Reaction
  {
    match GetHandler(c, ev, ButtonEvent(ev, "MouseDrag"))
    case Err(e) => Reaction(Err(e), t)
    case Ok(None) => Reaction(Ok(Delivered(None, true)), t)
    case Ok(Some(h)) => Reaction(Ok(Delivered(Some(h), true)), Moved(t, loc))
  }

  /** `__onMouseMove`: a drag goes to `__onMouseDrag`. */
  function MouseMove(c: Config, t: Track, loc: Location, ev: GuiEvent, accepted: bool): Reaction
  {
    if ev.dragging then MouseDrag(c, t, loc, ev)
    else match GetHandler(c, ev, "MouseMove")
      case Err(e) => Reaction(Err(e), t)
      case Ok(None) => Reaction(Ok(Delivered(None, true)), t)
      case Ok(Some(h)) => Reaction(Ok(Delivered(Some(h), !accepted)), Moved(t, loc))
  }

  /** `__onMouseWheel`, `__onMouseEnter` and `__onMouseLeave`: the handler's answer is not
      used and nothing is skipped or recorded. */
  function Passive(c: Config, t: Track, ev: GuiEvent, evType: string): Reaction
  {
    match GetHandler(c, ev, evType)
    case Err(e) => Reaction(Err(e), t)
    case Ok(h) => Reaction(Ok(Delivered(h, false)), t)
  }

  /** `__onChar` */
  function KeyChar(c: Config, t: Track, ev: GuiEvent, accepted: bool): Reaction
  {
    match GetHandler(c, ev, "Char")
    case Err(e) => Reaction(Err(e), t)
    case Ok(None) => Reaction(Ok(Delivered(None, true)), t)
    case Ok(Some(h)) => Reaction(Ok(Delivered(Some(h), !accepted)), t)
  }

  /** `handleEvent`: events from other objects and events without an entry in the event
      table are dropped; a button press or release makes its source the last canvas before
      the event goes to its handler. */
  function Handle(c: Config, t: Track, loc: Location, ev: GuiEvent, accepted: bool): (r: Reaction)
    ensures ev.source !in c.targets || ev.evType == OtherEvent ==> r == Reaction(Ok(Ignored), t)
    ensures r.track.lastCanvas ==
      if ev.source in c.targets && (IsButtonDown(ev.evType) || IsButtonUp(ev.evType)) then Some(ev.source) else t.lastCanvas
    ensures ev.source in c.targets && IsButtonDown(ev.evType) ==> r.track.mouseDown == loc.mouse && r.track.canvasDown == loc.canvas
    ensures ev.source in c.targets && IsButtonUp(ev.evType) && r.result.Ok? ==> r.track.mouseDown.None? && r.track.canvasDown.None?
    ensures IsButtonUp(ev.evType) && r.result.Ok? && r.result.value.Delivered? ==>
      r.track.lastMouseUp == (if r.result.value.handler.Some? then loc.mouse else t.lastMouseUp)
    ensures !IsButtonUp(ev.evType) ==> r.track.lastMouseUp == t.lastMouseUp && r.track.lastCanvasUp == t.lastCanvasUp
    ensures !IsButtonDown(ev.evType) && !IsButtonUp(ev.evType) ==> r.track.mouseDown == t.mouseDown && r.track.canvasDown == t.canvasDown
    ensures r.result.Ok? && r.result.value.Delivered? && r.result.value.handler.Some? ==> r.result.value.handler.value in c.handlers
  {
    if ev.source !in c.targets || ev.evType == OtherEvent then Reaction(Ok(Ignored), t)
    else
      var t' := if IsButtonDown(ev.evType) || IsButtonUp(ev.evType) then t.(lastCanvas := Some(ev.source)) else t;
      match ev.evType
      case LeftDown => MouseDown(c, t', loc, ev, accepted)
      case MiddleDown => MouseDown(c, t', loc, ev, accepted)
      case RightDown => MouseDown(c, t', loc, ev, accepted)
      case LeftUp => MouseUp(c, t', loc, ev, accepted)
      case MiddleUp => MouseUp(c, t', loc, ev, accepted)
      case RightUp => MouseUp(c, t', loc, ev, accepted)
      case Motion => MouseMove(c, t', loc, ev, accepted)
      case MouseWheel => Passive(c, t', ev, "MouseWheel")
      case EnterWindow => Passive(c, t', ev, "MouseEnter")
      case LeaveWindow => Passive(c, t', ev, "MouseLeave")
      case CharEvent => KeyChar(c, t', ev, accepted)
  }

  /** A press followed by a release on the profile's canvases leaves no press behind, and
      the release is recorded when the release has a handler. */
  lemma PressRelease(c: Config, t: Track, loc1: Location, down: GuiEvent, loc2: Location, up: GuiEvent,
                     a1: bool, a2: bool, h: string)
    requires IsButtonDown(down.evType) && IsButtonUp(up.evType) && up.source in c.targets
    requires GetHandler(c, up, ButtonEvent(up, "MouseUp")) == Ok(Some(h))
    ensures var r := Handle(c, Handle(c, t, loc1, down, a1).track, loc2, up, a2);
      r.result == Ok(Delivered(Some(h), !a2)) &&
      r.track.mouseDown.None? && r.track.lastMouseUp == loc2.mouse && r.track.lastCanvas == Some(up.source)
  {
  }

  // ---------------------------------------------------------------- plot event manager

  /** The `matplotlib` events a plot's event manager listens to. */
  const MPL_EVENT_TYPES: seq<string> := [
    "button_press_event", "button_release_event", "motion_notify_event",
    "scroll_event", "key_press_event", "key_release_event"]

  /** The calls a plot's event manager makes on its canvases. */
  datatype MplCall = Connect(target: Source, name: string, cid: nat) | Disconnect(target: Source, cid: nat)

  /** The id table after connecting the first `n` names on target `t`; `connect` gives
      the id `mpl_connect` returns. */
  function Assign(cids: map<string, nat>, t: Source, names: seq<string>, n: nat, connect: (Source, string) -> nat): map<string, nat>
    requires n <= |names|
  {
    if n == 0 then cids else Assign(cids, t, names, n - 1, connect)[names[n - 1] := connect(t, names[n - 1])]
  }

  /** The id table after connecting every name on the first `m` targets. */
  function Connected(cids: map<string, nat>, targets: seq<Source>, m: nat, names: seq<string>, connect: (Source, string) -> nat): map<string, nat>
    requires m <= |targets|
  {
    if m == 0 then cids else Assign(Connected(cids, targets, m - 1, names, connect), targets[m - 1], names, |names|, connect)
  }

  function ConnectCalls(t: Source, names: seq<string>, n: nat, connect: (Source, string) -> nat): seq<MplCall>
    requires n <= |names|
  {
    if n == 0 then [] else ConnectCalls(t, names, n - 1, connect) + [Connect(t, names[n - 1], connect(t, names[n - 1]))]
  }

  function AllConnectCalls(targets: seq<Source>, m: nat, names: seq<string>, connect: (Source, string) -> nat): seq<MplCall>
    requires m <= |targets|
  {
    if m == 0 then [] else AllConnectCalls(targets, m - 1, names, connect) + ConnectCalls(targets[m - 1], names, |names|, connect)
  }

  /** Whether the first `n` names have an id. */
  predicate MappedBelow(names: seq<string>, cids: map<string, nat>, n: nat)
    requires n <= |names|
  {
    forall i :: 0 <= i < n ==> names[i] in cids
  }

  predicate Mapped(names: seq<string>, cids: map<string, nat>)
  {
    MappedBelow(names, cids, |names|)
  }

  function Disconnects(t: Source, names: seq<string>, n: nat, cids: map<string, nat>): seq<MplCall>
    requires n <= |names| && MappedBelow(names, cids, n)
  {
    if n == 0 then [] else Disconnects(t, names, n - 1, cids) + [Disconnect(t, cids[names[n - 1]])]
  }

  function AllDisconnects(targets: seq<Source>, m: nat, names: seq<string>, cids: map<string, nat>): seq<MplCall>
    requires m <= |targets| && (m == 0 || Mapped(names, cids))
  {
    if m == 0 then [] else AllDisconnects(targets, m - 1, names, cids) + Disconnects(targets[m - 1], names, |names|, cids)
  }

  /** The index of the first name from `i` on without an id, or the length. */
  function FirstMissing(names: seq<string>, cids: map<string, nat>, i: nat): (r: nat)
    requires i <= |names|
    ensures i <= r <= |names|
    ensures forall k :: i <= k < r ==> names[k] in cids
    ensures r < |names| ==> names[r] !in cids
    decreases |names| - i
  {
    if i == |names| || names[i] !in cids then i else FirstMissing(names, cids, i + 1)
  }

  /** Connecting the names on one target sets exactly their ids to that target's. */
  lemma {:induction false} AssignClosed(cids: map<string, nat>, t: Source, names: seq<string>, n: nat, connect: (Source, string) -> nat)
    requires n <= |names|
    ensures Assign(cids, t, names, n, connect) == cids + map k | k in names[..n] :: connect(t, k)
  {
    if n > 0 {
      AssignClosed(cids, t, names, n - 1, connect);
      assert names[..n] == names[..n - 1] + [names[n - 1]];
    }
  }

  /** After `register` the table holds, for every event name, the id of the last target;
      with no targets it is unchanged. */
  lemma {:induction false} ConnectedLast(cids: map<string, nat>, targets: seq<Source>, m: nat, names: seq<string>, connect: (Source, string) -> nat)
    requires 0 < m <= |targets|
    ensures Connected(cids, targets, m, names, connect) == cids + map k | k in names :: connect(targets[m - 1], k)
  {
    AssignClosed(Connected(cids, targets, m - 1, names, connect), targets[m - 1], names, |names|, connect);
    assert names[..|names|] == names;
    if m > 1 {
      ConnectedLast(cids, targets, m - 1, names, connect);
    }
  }

  /** So after a `register` on some target every event name has an id, and a
      `deregister` goes through. */
  lemma RegisterMapsAll(cids: map<string, nat>, targets: seq<Source>, names: seq<string>, connect: (Source, string) -> nat)
    requires |targets| > 0
    ensures Mapped(names, Connected(cids, targets, |targets|, names, connect))
  {
    ConnectedLast(cids, targets, |targets|, names, connect);
  }

  /** The manager that ties a profile to the `matplotlib` canvases of a plot. */
  class PlotPanelEventManager {
    const eventTypes: seq<string>
    /** The id `mpl_connect` hands out on each canvas for each event name. */
    const connect: (Source, string) -> nat
    var lastEvent: Option<MplEvent>
    var cids: map<string, nat>
    /** The connect and disconnect calls made on the canvases so far. */
    ghost var calls: seq<MplCall>

    constructor(connect: (Source, string) -> nat)
      ensures eventTypes == MPL_EVENT_TYPES && this.connect == connect
      ensures lastEvent == None && cids == map[] && calls == []
    {
      eventTypes := MPL_EVENT_TYPES;
      this.connect := connect;
      lastEvent := None;
      cids := map[];
      calls := [];
    }

    /** `register`: every event name is connected on every target, and its id is kept. */
    method Register(targets: seq<Source>)
      modifies this
      ensures cids == Connected(old(cids), targets, |targets|, eventTypes, connect)
      ensures calls == old(calls) + AllConnectCalls(targets, |targets|, eventTypes, connect)
      ensures lastEvent == old(lastEvent)
    {
      var i := 0;
      while i < |targets|
        invariant 0 <= i <= |targets|
        invariant cids == Connected(old(cids), targets, i, eventTypes, connect)
        invariant calls == old(calls) + AllConnectCalls(targets, i, eventTypes, connect)
        invariant lastEvent == old(lastEvent)
      {
        var j := 0;
        while j < |eventTypes|
          invariant 0 <= j <= |eventTypes|
          invariant cids == Assign(Connected(old(cids), targets, i, eventTypes, connect), targets[i], eventTypes, j, connect)
          invariant calls == old(calls) + AllConnectCalls(targets, i, eventTypes, connect) + ConnectCalls(targets[i], eventTypes, j, connect)
          invariant lastEvent == old(lastEvent)
        {
          var name := eventTypes[j];
          var cid := connect(targets[i], name);
          cids := cids[name := cid];
          calls := calls + [Connect(targets[i], name, cid)];
          j := j + 1;
        }
        i := i + 1;
      }
    }

    /** `deregister`: every kept id is disconnected on every target and the table is
        emptied; a name without an id raises `KeyError` at the first target. */
    method Deregister(targets: seq<Source>) returns (r: Result<()>)
      modifies this
      ensures |targets| == 0 || Mapped(eventTypes, old(cids)) ==>
        r == Ok(()) && cids == map[] && calls == old(calls) + AllDisconnects(targets, |targets|, eventTypes, old(cids))
      ensures |targets| > 0 && !Mapped(eventTypes, old(cids)) ==>
        r == Err(KeyError) && cids == old(cids) &&
        calls == old(calls) + Disconnects(targets[0], eventTypes, FirstMissing(eventTypes, old(cids), 0), old(cids))
      ensures lastEvent == old(lastEvent)
    {
      var i := 0;
      while i < |targets|
        invariant 0 <= i <= |targets|
        invariant i > 0 ==> Mapped(eventTypes, cids)
        invariant cids == old(cids) && lastEvent == old(lastEvent)
        invariant calls == old(calls) + AllDisconnects(targets, i, eventTypes, cids)
      {
        var j := 0;
        while j < |eventTypes|
          invariant 0 <= j <= |eventTypes|
          invariant MappedBelow(eventTypes, cids, j)
          invariant i > 0 ==> Mapped(eventTypes, cids)
          invariant cids == old(cids) && lastEvent == old(lastEvent)
          invariant calls == old(calls) + AllDisconnects(targets, i, eventTypes, cids) + Disconnects(targets[i], eventTypes, j, cids)
        {
          var name := eventTypes[j];
          if name !in cids {
            assert FirstMissing(eventTypes, cids, 0) == j;
            return Err(KeyError);
          }
          calls := calls + [Disconnect(targets[i], cids[name])];
          j := j + 1;
        }
        i := i + 1;
      }
      cids := map[];
      r := Ok(());
    }

    /** The event-name filter of `__onEvent`: a listened-to event becomes the last event
        and is to be passed on to the profile. */
    method Receive(ev: MplEvent) returns (forward: bool)
      modifies this
      ensures forward <==> ev.name in eventTypes
      ensures lastEvent == if forward then Some(ev) else old(lastEvent)
      ensures cids == old(cids) && calls == old(calls)
    {
      if ev.name !in eventTypes {
        return false;
      }
      lastEvent := Some(ev);
      forward := true;
    }
  }

  // ---------------------------------------------------------------- profiles

  /** A profile class: its name, its method resolution order (itself first), the handler
      methods it defines or inherits, and its modes, the first of which is the initial
      one. */
  datatype ProfileClass = ProfileClass(name: string, mro: seq<string>, handlers: set<string>, modes: seq<string>)

  /** The lookup settings of a newly created profile of class `cls`. */
  function InitialConfig(cls: ProfileClass, targets: seq<Source>,
                         tempTable: map<string, map<(Mode, KeyMod), Mode>>,
                         altTable: map<string, map<(Mode, string), (Mode, string)>>): Config
  {
    Config(if |cls.modes| > 0 then Some(cls.modes[0]) else None,
           Layered(tempTable, cls.mro), Layered(altTable, cls.mro), cls.handlers, targets)
  }

  class Profile {
    const cls: ProfileClass
    /** `getEventTargets()` */
    const targets: seq<Source>
    /** The plot event manager, on a plot view; `null` on a canvas view. */
    const plotManager: PlotPanelEventManager?
    var mode: Mode
    var tempModeMap: map<(Mode, KeyMod), Mode>
    var altHandlerMap: map<(Mode, string), (Mode, string)>
    var mouseDownPos: Option<Point>
    var canvasDownPos: Option<CanvasPos>
    var lastMousePos: Option<Point>
    var lastCanvasPos: Option<CanvasPos>
    var lastMouseUpPos: Option<Point>
    var lastCanvasUpPos: Option<CanvasPos>
    var lastCanvas: Option<Source>
    /** Whether the profile still holds its view panel, overlay list and display context. */
    var attached: bool

    function Settings(): Config
      reads this
    {
      Config(mode, tempModeMap, altHandlerMap, cls.handlers, targets)
    }

    function Tracking(): Track
      reads this
    {
      Track(mouseDownPos, canvasDownPos, lastMousePos, lastCanvasPos, lastMouseUpPos, lastCanvasUpPos, lastCanvas)
    }

    /** `__getMouseLocation`, answered by the event manager. */
    function MouseLocation(ev: GuiEvent): Location
      reads plotManager
    {
      if plotManager == null then CanvasLocation(ev) else PlotLocation(plotManager.lastEvent)
    }

    /** `getMplEvent`: the last `matplotlib` event on a plot view, `None` otherwise. */
    function MplEventOf(): (e: Option<MplEvent>)
      reads plotManager
      ensures plotManager == null ==> e.None?
      ensures plotManager != null ==> e == plotManager.lastEvent
    {
      if plotManager == null then None else plotManager.lastEvent
    }

    /** `__init__`: the first mode is selected and the class tables are filled in from the
        most basic class to the most derived one. */
    constructor(cls: ProfileClass, targets: seq<Source>,
                tempTable: map<string, map<(Mode, KeyMod), Mode>>,
                altTable: map<string, map<(Mode, string), (Mode, string)>>,
                plotManager: PlotPanelEventManager?)
      ensures this.cls == cls && this.targets == targets && this.plotManager == plotManager
      ensures Settings() == InitialConfig(cls, targets, tempTable, altTable)
      ensures Tracking() == NoTrack && attached
    {
      this.cls := cls;
      this.targets := targets;
      this.plotManager := plotManager;
      mode := if |cls.modes| > 0 then Some(cls.modes[0]) else None;
      tempModeMap := map[];
      altHandlerMap := map[];
      mouseDownPos := None;
      canvasDownPos := None;
      lastMousePos := None;
      lastCanvasPos := None;
      lastMouseUpPos := None;
      lastCanvasUpPos := None;
      lastCanvas := None;
      attached := true;
      new;
      ApplyClassTables(cls.mro, tempTable, altTable);
    }

    /** The loop of `__init__` over the reversed method resolution order. */
    method ApplyClassTables(mro: seq<string>,
                            tempTable: map<string, map<(Mode, KeyMod), Mode>>,
                            altTable: map<string, map<(Mode, string), (Mode, string)>>)
      modifies this
      ensures tempModeMap == old(tempModeMap) + Layered(tempTable, mro)
      ensures altHandlerMap == old(altHandlerMap) + Layered(altTable, mro)
      ensures mode == old(mode) && Tracking() == old(Tracking()) && attached == old(attached)
    {
      var i := |mro|;
      while i > 0
        invariant 0 <= i <= |mro|
        invariant tempModeMap == old(tempModeMap) + Layered(tempTable, mro[i..])
        invariant altHandlerMap == old(altHandlerMap) + Layered(altTable, mro[i..])
        invariant mode == old(mode) && Tracking() == old(Tracking()) && attached == old(attached)
      {
        i := i - 1;
        AddTempModes(TableOf(tempTable, mro[i]));
        AddAltHandlers(TableOf(altTable, mro[i]));
        LayeredStep(tempTable, mro, i);
        LayeredStep(altTable, mro, i);
        MapAddAssoc(old(tempModeMap), Layered(tempTable, mro[i + 1..]), TableOf(tempTable, mro[i]));
        MapAddAssoc(old(altHandlerMap), Layered(altTable, mro[i + 1..]), TableOf(altTable, mro[i]));
      }
    }

    /** The inner loop over one class's temporary modes. */
    method AddTempModes(t: map<(Mode, KeyMod), Mode>)
      modifies this
      ensures tempModeMap == old(tempModeMap) + t
      ensures altHandlerMap == old(altHandlerMap) && mode == old(mode)
      ensures Tracking() == old(Tracking()) && attached == old(attached)
    {
      var todo := t.Keys;
      while todo != {}
        invariant todo <= t.Keys
        invariant tempModeMap == old(tempModeMap) + map k | k in t.Keys - todo :: t[k]
        invariant altHandlerMap == old(altHandlerMap) && mode == old(mode)
        invariant Tracking() == old(Tracking()) && attached == old(attached)
        decreases |todo|
      {
        var k :| k in todo;
        AddTempMode(k.0, k.1, t[k]);
        todo := todo - {k};
      }
      assert (map k | k in t.Keys - todo :: t[k]) == t;
    }

    /** The inner loop over one class's alternate handlers. */
    method AddAltHandlers(t: map<(Mode, string), (Mode, string)>)
      modifies this
      ensures altHandlerMap == old(altHandlerMap) + t
      ensures tempModeMap == old(tempModeMap) && mode == old(mode)
      ensures Tracking() == old(Tracking()) && attached == old(attached)
    {
      var todo := t.Keys;
      while todo != {}
        invariant todo <= t.Keys
        invariant altHandlerMap == old(altHandlerMap) + map k | k in t.Keys - todo :: t[k]
        invariant tempModeMap == old(tempModeMap) && mode == old(mode)
        invariant Tracking() == old(Tracking()) && attached == old(attached)
        decreases |todo|
      {
        var k :| k in todo;
        AddAltHandler(k.0, k.1, t[k].0, t[k].1);
        todo := todo - {k};
      }
      assert (map k | k in t.Keys - todo :: t[k]) == t;
    }

    /** `addTempMode`: a later registration for the same mode and modifier wins. */
    method AddTempMode(mode: Mode, modifier: KeyMod, tempMode: Mode)
      modifies this
      ensures tempModeMap == old(tempModeMap)[(mode, modifier) := tempMode]
      ensures altHandlerMap == old(altHandlerMap) && this.mode == old(this.mode)
      ensures Tracking() == old(Tracking()) && attached == old(attached)
    {
      tempModeMap := tempModeMap[(mode, modifier) := tempMode];
    }

    /** `addAltHandler`: a later registration for the same mode and event wins. */
    method AddAltHandler(mode: Mode, evType: string, altMode: Mode, altEvType: string)
      modifies this
      ensures altHandlerMap == old(altHandlerMap)[(mode, evType) := (altMode, altEvType)]
      ensures tempModeMap == old(tempModeMap) && this.mode == old(this.mode)
      ensures Tracking() == old(Tracking()) && attached == old(attached)
    {
      altHandlerMap := altHandlerMap[(mode, evType) := (altMode, altEvType)];
    }

    /** `register`: on a plot view the event manager connects every event name. */
    method Register()
      modifies plotManager
      ensures plotManager != null ==>
        plotManager.cids == Connected(old(plotManager.cids), targets, |targets|, plotManager.eventTypes, plotManager.connect) &&
        plotManager.calls == old(plotManager.calls) + AllConnectCalls(targets, |targets|, plotManager.eventTypes, plotManager.connect) &&
        plotManager.lastEvent == old(plotManager.lastEvent)
    {
      if plotManager != null {
        plotManager.Register(targets);
      }
    }

    /** Whether `deregister` would raise `KeyError`. */
    predicate DeregisterFails()
      reads plotManager
    {
      plotManager != null && |targets| > 0 && !Mapped(plotManager.eventTypes, plotManager.cids)
    }

    /** `deregister`: on a plot view the event manager disconnects every kept id. */
    method Deregister() returns (r: Result<()>)
      modifies plotManager
      ensures r.Err? <==> old(DeregisterFails())
      ensures r.Err? ==> r.error == KeyError
      ensures plotManager != null && r.Ok? ==> plotManager.cids == map[]
    {
      r := Ok(());
      if plotManager != null {
        r := plotManager.Deregister(targets);
      }
    }

    /** `destroy`: the last canvas and the references to the view are dropped. */
    method Destroy()
      modifies this
      ensures !attached && lastCanvas.None?
      ensures Settings() == old(Settings())
      ensures Tracking() == old(Tracking()).(lastCanvas := None)
    {
      lastCanvas := None;
      attached := false;
    }

    /** `__getHandler(ev, evType)` on this profile's settings. */
    function Handler(ev: GuiEvent, evType: string): Result<Option<string>>
      reads this
    {
      GetHandler(Settings(), ev, evType)
    }

    method OnMouseDown(ev: GuiEvent, accepted: bool) returns (r: Result<Outcome>)
      modifies this
      ensures Reaction(r, Tracking()) == MouseDown(old(Settings()), old(Tracking()), MouseLocation(ev), ev, accepted)
      ensures Settings() == old(Settings()) && attached == old(attached)
    {
      var loc := MouseLocation(ev);
      mouseDownPos := loc.mouse;
      canvasDownPos := loc.canvas;
      if lastMousePos.None? {
        lastMousePos := loc.mouse;
      }
      if lastCanvasPos.None? {
        lastCanvasPos := loc.canvas;
      }
      var h := Handler(ev, ButtonEvent(ev, "MouseDown"));
      match h
      case Err(e) =>
        r := Err(e);
      case Ok(None) =>
        r := Ok(Delivered(None, true));
      case Ok(Some(name)) =>
        r := Ok(Delivered(Some(name), !accepted));
        lastMousePos := loc.mouse;
        lastCanvasPos := loc.canvas;
    }

    method OnMouseUp(ev: GuiEvent, accepted: bool) returns (r: Result<Outcome>)
      modifies this
      ensures Reaction(r, Tracking()) == MouseUp(old(Settings()), old(Tracking()), MouseLocation(ev), ev, accepted)
      ensures Settings() == old(Settings()) && attached == old(attached)
    {
      var h := Handler(ev, ButtonEvent(ev, "MouseUp"));
      match h
      case Err(e) =>
        r := Err(e);
      case Ok(None) =>
        mouseDownPos := None;
        canvasDownPos := None;
        r := Ok(Delivered(None, true));
      case Ok(Some(name)) =>
        var loc := MouseLocation(ev);
        r := Ok(Delivered(Some(name), !accepted));
        mouseDownPos := None;
        canvasDownPos := None;
        lastMouseUpPos := loc.mouse;
        lastCanvasUpPos := loc.canvas;
    }

    method OnMouseDrag(ev: GuiEvent) returns (r: Result<Outcome>)
      modifies this
      ensures Reaction(r, Tracking()) == MouseDrag(old(Settings()), old(Tracking()), MouseLocation(ev), ev)
      ensures Settings() == old(Settings()) && attached == old(attached)
    {
      var loc := MouseLocation(ev);
      var h := Handler(ev, ButtonEvent(ev, "MouseDrag"));
      match h
      case Err(e) =>
        r := Err(e);
      case Ok(None) =>
        r := Ok(Delivered(None, true));
      case Ok(Some(name)) =>
        r := Ok(Delivered(Some(name), true));
        lastMousePos := loc.mouse;
        lastCanvasPos := loc.canvas;
    }

    method OnMouseMove(ev: GuiEvent, accepted: bool) returns (r: Result<Outcome>)
      modifies this
      ensures Reaction(r, Tracking()) == MouseMove(old(Settings()), old(Tracking()), MouseLocation(ev), ev, accepted)
      ensures Settings() == old(Settings()) && attached == old(attached)
    {
      if ev.dragging {
        r := OnMouseDrag(ev);
        return;
      }
      var h := Handler(ev, "MouseMove");
      match h
      case Err(e) =>
        r := Err(e);
      case Ok(None) =>
        r := Ok(Delivered(None, true));
      case Ok(Some(name)) =>
        var loc := MouseLocation(ev);
        r := Ok(Delivered(Some(name), !accepted));
        lastMousePos := loc.mouse;
        lastCanvasPos := loc.canvas;
    }

    /** `__onMouseWheel`, `__onMouseEnter` and `__onMouseLeave`. */
    method OnPassive(ev: GuiEvent, evType: string) returns (r: Result<Outcome>)
      ensures Reaction(r, Tracking()) == Passive(Settings(), Tracking(), ev, evType)
    {
      var h := Handler(ev, evType);
      match h
      case Err(e) =>
        r := Err(e);
      case Ok(name) =>
        r := Ok(Delivered(name, false));
    }

    method OnChar(ev: GuiEvent, accepted: bool) returns (r: Result<Outcome>)
      ensures Reaction(r, Tracking()) == KeyChar(Settings(), Tracking(), ev, accepted)
    {
      var h := Handler(ev, "Char");
      match h
      case Err(e) =>
        r := Err(e);
      case Ok(None) =>
        r := Ok(Delivered(None, true));
      case Ok(Some(name)) =>
        r := Ok(Delivered(Some(name), !accepted));
    }

    /** `handleEvent` */
    method HandleEvent(ev: GuiEvent, accepted: bool) returns (r: Result<Outcome>)
      modifies this
      ensures Reaction(r, Tracking()) == Handle(old(Settings()), old(Tracking()), MouseLocation(ev), ev, accepted)
      ensures Settings() == old(Settings()) && attached == old(attached)
    {
      if ev.source !in targets || ev.evType == OtherEvent {
        return Ok(Ignored);
      }
      if IsButtonDown(ev.evType) || IsButtonUp(ev.evType) {
        lastCanvas := Some(ev.source);
      }
      match ev.evType
      case LeftDown => r := OnMouseDown(ev, accepted);
      case MiddleDown => r := OnMouseDown(ev, accepted);
      case RightDown => r := OnMouseDown(ev, accepted);
      case LeftUp => r := OnMouseUp(ev, accepted);
      case MiddleUp => r := OnMouseUp(ev, accepted);
      case RightUp => r := OnMouseUp(ev, accepted);
      case Motion => r := OnMouseMove(ev, accepted);
      case MouseWheel => r := OnPassive(ev, "MouseWheel");
      case EnterWindow => r := OnPassive(ev, "MouseEnter");
      case LeaveWindow => r := OnPassive(ev, "MouseLeave");
      case CharEvent => r := OnChar(ev, accepted);
    }

    /** `PlotPanelEventManager.__onEvent`: a listened-to `matplotlib` event becomes the
        manager's last event and its `wx` event is handled; others are dropped. */
    method OnPlotEvent(ev: MplEvent, accepted: bool) returns (r: Result<Outcome>)
      requires plotManager != null
      modifies this, plotManager
      ensures ev.name !in plotManager.eventTypes ==>
        r == Ok(Ignored) && Tracking() == old(Tracking()) && plotManager.lastEvent == old(plotManager.lastEvent)
      ensures ev.name in plotManager.eventTypes ==>
        plotManager.lastEvent == Some(ev) &&
        Reaction(r, Tracking()) == Handle(old(Settings()), old(Tracking()), PlotLocation(Some(ev)), ev.guiEvent, accepted)
      ensures Settings() == old(Settings()) && attached == old(attached)
      ensures plotManager.cids == old(plotManager.cids) && plotManager.calls == old(plotManager.calls)
    {
      var forward := plotManager.Receive(ev);
      if !forward {
        return Ok(Ignored);
      }
      r := HandleEvent(ev.guiEvent, accepted);
    }
  }

  // ---------------------------------------------------------------- profile manager

  /** The kind of view a profile is created for: it decides the event manager. */
  datatype ViewKind = CanvasView | PlotView | OtherView

  /** The steps of a profile's life that `changeProfile` and `destroy` take. */
  datatype Lifecycle = Deregistered(cls: ProfileClass) | Destroyed(cls: ProfileClass) | Created(cls: ProfileClass) | Registered(cls: ProfileClass)

  /** `Profile.__init__` with the choice of event manager: a view that is neither a canvas
      nor a plot view raises `ValueError`. */
  method NewProfile(cls: ProfileClass, kind: ViewKind, targets: seq<Source>,
                    tempTable: map<string, map<(Mode, KeyMod), Mode>>,
                    altTable: map<string, map<(Mode, string), (Mode, string)>>,
                    connect: (Source, string) -> nat) returns (r: Result<Profile>)
    ensures r.Err? <==> kind == OtherView
    ensures r.Err? ==> r.error == ValueError
    ensures r.Ok? ==> fresh(r.value) && r.value.cls == cls && r.value.targets == targets && r.value.attached
    ensures r.Ok? ==> r.value.Settings() == InitialConfig(cls, targets, tempTable, altTable) && r.value.Tracking() == NoTrack
    ensures r.Ok? ==> (r.value.plotManager != null <==> kind == PlotView)
    ensures r.Ok? && r.value.plotManager != null ==>
      fresh(r.value.plotManager) && r.value.plotManager.eventTypes == MPL_EVENT_TYPES &&
      r.value.plotManager.connect == connect && r.value.plotManager.lastEvent.None? && r.value.plotManager.cids == map[]
  {
    match kind
    case OtherView =>
      r := Err(ValueError);
    case CanvasView =>
      var p := new Profile(cls, targets, tempTable, altTable, null);
      r := Ok(p);
    case PlotView =>
      var m := new PlotPanelEventManager(connect);
      var p := new Profile(cls, targets, tempTable, altTable, m);
      r := Ok(p);
  }

  /** Deregistering and destroying a profile, as the log records it. */
  function Retired(p: Profile?): seq<Lifecycle>
  {
    if p == null then [] else [Deregistered(p.cls), Destroyed(p.cls)]
  }

  class ProfileManager {
    const viewCls: string
    const viewKind: ViewKind
    /** The event targets of the view's profiles. */
    const targets: seq<Source>
    /** `profilemap.profileHandlers`: (view class, profile name) to profile class. */
    const profileHandlers: map<(string, string), ProfileClass>
    /** `profilemap.tempModeMap` and `profilemap.altHandlerMap`, by class name. */
    const tempTable: map<string, map<(Mode, KeyMod), Mode>>
    const altTable: map<string, map<(Mode, string), (Mode, string)>>
    const connect: (Source, string) -> nat
    var current: Profile?
    /** Whether the manager still holds its view panel, overlay list and display
        context; a profile created without them finds no known view type. */
    var attached: bool
    /** What happened to the profiles so far, in order. */
    ghost var log: seq<Lifecycle>

    constructor(viewCls: string, viewKind: ViewKind, targets: seq<Source>,
                profileHandlers: map<(string, string), ProfileClass>,
                tempTable: map<string, map<(Mode, KeyMod), Mode>>,
                altTable: map<string, map<(Mode, string), (Mode, string)>>,
                connect: (Source, string) -> nat)
      ensures this.viewCls == viewCls && this.viewKind == viewKind && this.targets == targets
      ensures this.profileHandlers == profileHandlers && this.tempTable == tempTable && this.altTable == altTable
      ensures this.connect == connect && current == null && attached && log == []
    {
      this.viewCls := viewCls;
      this.viewKind := viewKind;
      this.targets := targets;
      this.profileHandlers := profileHandlers;
      this.tempTable := tempTable;
      this.altTable := altTable;
      this.connect := connect;
      current := null;
      attached := true;
      log := [];
    }

    /** The current profile and its event manager. */
    function Footprint(): set<object>
      reads this
    {
      if current == null then {}
      else if current.plotManager == null then {current}
      else {current, current.plotManager}
    }

    /** Whether `changeProfile(name)` replaces the current profile. */
    predicate Switches(name: string)
      reads this
    {
      (viewCls, name) in profileHandlers && (current == null || current.cls != profileHandlers[(viewCls, name)])
    }

    /** Whether retiring the current profile raises. */
    predicate RetireFails()
      reads this, Footprint()
    {
      current != null && current.DeregisterFails()
    }

    /** `changeProfile`: nothing happens when the current profile already has the requested
        class; otherwise the current profile (if any) is deregistered and destroyed before
        the new one is created and registered. */
    method ChangeProfile(name: string) returns (r: Result<()>)
      modifies this, Footprint()
      ensures (viewCls, name) !in profileHandlers ==> r == Err(KeyError) && current == old(current) && log == old(log)
      ensures (viewCls, name) in profileHandlers && !old(Switches(name)) ==> r == Ok(()) && current == old(current) && log == old(log)
      ensures old(Switches(name)) && old(RetireFails()) ==> r == Err(KeyError) && current == old(current) && log == old(log)
      ensures old(Switches(name)) && !old(RetireFails()) && (viewKind == OtherView || !attached) ==>
        r == Err(ValueError) && current == null && log == old(log) + Retired(old(current))
      ensures old(Switches(name)) && !old(RetireFails()) && viewKind != OtherView && attached ==>
        r == Ok(()) && current != null && fresh(current) && current.cls == profileHandlers[(viewCls, name)] &&
        current.attached && current.Tracking() == NoTrack &&
        current.Settings() == InitialConfig(current.cls, targets, tempTable, altTable) &&
        log == old(log) + Retired(old(current)) + [Created(current.cls), Registered(current.cls)]
      ensures old(Switches(name)) && !old(RetireFails()) && old(current) != null ==> !old(current).attached
      ensures attached == old(attached)
    {
      if (viewCls, name) !in profileHandlers {
        return Err(KeyError);
      }
      var profileCls := profileHandlers[(viewCls, name)];
      if current != null && current.cls == profileCls {
        return Ok(());
      }
      r := Retire();
      if r.Err? {
        return;
      }
      var created := NewProfile(profileCls, if attached then viewKind else OtherView, targets, tempTable, altTable, connect);
      if created.Err? {
        return Err(created.error);
      }
      current := created.value;
      log := log + [Created(profileCls)];
      current.Register();
      log := log + [Registered(profileCls)];
      r := Ok(());
    }

    /** `destroy`: the current profile, if any, is deregistered and destroyed, and the
        references to the view are dropped. */
    method Destroy() returns (r: Result<()>)
      modifies this, Footprint()
      ensures old(RetireFails()) ==> r == Err(KeyError) && current == old(current) && log == old(log) && attached == old(attached)
      ensures !old(RetireFails()) ==> r == Ok(()) && current == null && !attached && log == old(log) + Retired(old(current))
      ensures !old(RetireFails()) && old(current) != null ==> !old(current).attached
    {
      r := Retire();
      if r.Ok? {
        attached := false;
      }
    }

    /** The current profile, if any, is deregistered and destroyed, and there is no
        current profile any more; if deregistering raises, nothing else happens. */
    method Retire() returns (r: Result<()>)
      modifies this, Footprint()
      ensures old(RetireFails()) ==> r == Err(KeyError) && current == old(current) && log == old(log)
      ensures !old(RetireFails()) ==> r == Ok(()) && current == null && log == old(log) + Retired(old(current))
      ensures !old(RetireFails()) && old(current) != null ==> !old(current).attached
      ensures attached == old(attached)
    {
      if current != null {
        var d := current.Deregister();
        if d.Err? {
          return Err(d.error);
        }
        log := log + [Deregistered(current.cls)];
        current.Destroy();
        log := log + [Destroyed(current.cls)];
      }
      current := null;
      r := Ok(());
    }
  }
}
