/** The keyboard shortcut service: matching a key event against a binding, the first-match
    dispatch over the configured bindings, and what each action does to the drawing store.
    Listener registration, fullscreen, navigation and the confirm dialog's display are
    outside the model (the dialog's answer is a parameter). */
module KeyboardShortcuts {
  import opened Wrappers
  import opened Types
  import opened Settings
  import Text
  import opened Geometry
  import History
  import opened DrawingStoreModule

  /** The event's target element: its tag name and its `contenteditable` attribute. */
  datatype Element = Element(tagName: string, contentEditable: Option<string>)

  datatype KeyEvent = KeyEvent(
    key: string, ctrlKey: bool, altKey: bool, shiftKey: bool, metaKey: bool, target: Option<Element>)

  datatype ToolShortcut = PenTool | HighlighterTool | EraserTool | HandTool
  datatype CanvasAction = UndoAction | RedoAction | ClearAction | ZoomInAction | ZoomOutAction | ResetZoomAction | SaveAction
  datatype UIAction = ToggleSidebar | OpenSettings | ToggleFullscreen
  datatype Action = Tool(tool: ToolShortcut) | Canvas(canvas: CanvasAction) | UI(ui: UIAction)

  /** What an action hands to the page outside the drawing store. */
  datatype Signal = NoSignal | KeyboardSave | ToggleSidebarEvent | NavigateToSettings | FullscreenToggle

  /** A key as compared: the space character is called "space", other keys are lower-cased. */
  function NormalKey(k: string): string {
    if k == " " then "space" else Text.Lower(k)
  }

  predicate ModifiersMatch(e: KeyEvent, s: KeyboardShortcut) {
    && e.ctrlKey == s.ctrl.GetOr(false)
    && e.altKey == s.alt.GetOr(false)
    && e.shiftKey == s.shift.GetOr(false)
    && e.metaKey == s.meta.GetOr(false)
  }

  /** `matchesShortcut`. */
  predicate MatchesShortcut(e: KeyEvent, s: KeyboardShortcut)
    ensures MatchesShortcut(e, s) ==>
      && e.ctrlKey == (s.ctrl == Some(true)) && e.altKey == (s.alt == Some(true))
      && e.shiftKey == (s.shift == Some(true)) && e.metaKey == (s.meta == Some(true))
    ensures MatchesShortcut(e, s) && s.key == " " ==> e.key == " " || Text.Lower(e.key) == "space"
  {
    NormalKey(e.key) == NormalKey(s.key) && ModifiersMatch(e, s)
  }

  /** Keys other than the space character are compared without regard to letter case, and
      every modifier must agree, an absent one counting as not pressed. */
  lemma MatchesIgnoringCase(e: KeyEvent, s: KeyboardShortcut)
    requires e.key != " " && s.key != " "
    ensures MatchesShortcut(e, s) <==>
      && Text.Lower(e.key) == Text.Lower(s.key)
      && e.ctrlKey == (s.ctrl == Some(true)) && e.altKey == (s.alt == Some(true))
      && e.shiftKey == (s.shift == Some(true)) && e.metaKey == (s.meta == Some(true))
  {
  }

  /** The space bar matches a binding written "space" in any letter case, and a binding
      written as the space character matches a key reported as "Space". */
  lemma SpaceAlias(e: KeyEvent, s: KeyboardShortcut)
    requires ModifiersMatch(e, s)
    ensures e.key == " " && Text.Lower(s.key) == "space" ==> MatchesShortcut(e, s)
    ensures s.key == " " && Text.Lower(e.key) == "space" ==> MatchesShortcut(e, s)
  {
  }

  /** `isInputElement`: a form field (in any letter case) or an element whose
      `contenteditable` is exactly "true". */
  predicate IsInputElement(element: Option<Element>)
    ensures IsInputElement(element) ==> element.Some?
    ensures element.Some? && element.value.contentEditable == Some("true") ==> IsInputElement(element)
  {
    && element.Some?
    && var tag := Text.Lower(element.value.tagName);
       tag == "input" || tag == "textarea" || tag == "select" || element.value.contentEditable == Some("true")
  }

  /** No target is no input; tags are compared without regard to letter case; a
      `contenteditable` other than "true" does not make an input. */
  lemma InputElementCases()
    ensures !IsInputElement(None)
    ensures IsInputElement(Some(Element("INPUT", None)))
    ensures IsInputElement(Some(Element("TextArea", None)))
    ensures IsInputElement(Some(Element("div", Some("true"))))
    ensures !IsInputElement(Some(Element("div", Some("false"))))
    ensures !IsInputElement(Some(Element("canvas", None)))
  {
    assert Text.Lower("INPUT") == "input";
    assert Text.Lower("TextArea") == "textarea";
    assert Text.Lower("div")[0] == 'd';
    assert Text.Lower("canvas")[0] == 'c';
  }

  /** The bindings in the order `handleKeyboardEvent` tries them: tools, canvas, ui. */
  function Bindings(sc: ShortcutSettings): (bs: seq<(KeyboardShortcut, Action)>)
    ensures |bs| == 14
  {
    [ (sc.tools.pen, Tool(PenTool)), (sc.tools.highlighter, Tool(HighlighterTool)),
      (sc.tools.eraser, Tool(EraserTool)), (sc.tools.hand, Tool(HandTool)),
      (sc.canvas.undo, Canvas(UndoAction)), (sc.canvas.redo, Canvas(RedoAction)),
      (sc.canvas.clear, Canvas(ClearAction)), (sc.canvas.zoomIn, Canvas(ZoomInAction)),
      (sc.canvas.zoomOut, Canvas(ZoomOutAction)), (sc.canvas.resetZoom, Canvas(ResetZoomAction)),
      (sc.canvas.save, Canvas(SaveAction)),
      (sc.ui.toggleSidebar, UI(ToggleSidebar)), (sc.ui.settings, UI(OpenSettings)),
      (sc.ui.fullscreen, UI(ToggleFullscreen)) ]
  }

  /** The action of the first binding the event matches, if any. */
  function FirstMatch(e: KeyEvent, bs: seq<(KeyboardShortcut, Action)>): (r: Option<Action>)
    ensures r.None? <==> forall i :: 0 <= i < |bs| ==> !MatchesShortcut(e, bs[i].0)
    ensures r.Some? ==> exists i :: 0 <= i < |bs| && MatchesShortcut(e, bs[i].0) && r.value == bs[i].1
                                    && forall j :: 0 <= j < i ==> !MatchesShortcut(e, bs[j].0)
  {
    if bs == [] then None
    else if MatchesShortcut(e, bs[0].0) then Some(bs[0].1)
    else
      var r := FirstMatch(e, bs[1..]);
      assert forall i :: 1 <= i < |bs| ==> bs[i] == bs[1..][i - 1];
      if r.Some? then
        var i :| 0 <= i < |bs[1..]| && MatchesShortcut(e, bs[1..][i].0) && r.value == bs[1..][i].1
                 && forall j :: 0 <= j < i ==> !MatchesShortcut(e, bs[1..][j].0);
        assert MatchesShortcut(e, bs[i + 1].0) && r.value == bs[i + 1].1;
        assert forall j :: 0 <= j < i + 1 ==> !MatchesShortcut(e, bs[j].0) by {
          forall j | 0 <= j < i + 1 ensures !MatchesShortcut(e, bs[j].0) {
            if j > 0 { assert bs[j] == bs[1..][j - 1]; }
          }
        }
        r
      else r
  }

  /** `handleKeyboardEvent`'s choice: nothing while shortcuts are disabled or the target is
      an input, otherwise the first matching binding. */
  function Dispatch(enabled: bool, e: KeyEvent, sc: ShortcutSettings): (r: Option<Action>)
    ensures r.Some? ==> enabled && !IsInputElement(e.target)
    ensures r.Some? ==> exists i :: 0 <= i < |Bindings(sc)| && MatchesShortcut(e, Bindings(sc)[i].0) && r.value == Bindings(sc)[i].1
  {
    if !enabled || IsInputElement(e.target) then None else FirstMatch(e, Bindings(sc))
  }

  /** The dispatch picks the earliest matching binding in the fixed order, and nothing when
      shortcuts are off, the target is an input, or no binding matches. */
  lemma DispatchSpec(enabled: bool, e: KeyEvent, sc: ShortcutSettings)
    ensures !enabled || IsInputElement(e.target) ==> Dispatch(enabled, e, sc).None?
    ensures enabled && !IsInputElement(e.target) ==>
      (Dispatch(enabled, e, sc).None? <==> forall i :: 0 <= i < 14 ==> !MatchesShortcut(e, Bindings(sc)[i].0))
    ensures Dispatch(enabled, e, sc).Some? ==>
      exists i :: 0 <= i < 14 && MatchesShortcut(e, Bindings(sc)[i].0) && Dispatch(enabled, e, sc).value == Bindings(sc)[i].1
                  && forall j :: 0 <= j < i ==> !MatchesShortcut(e, Bindings(sc)[j].0)
  {
  }

  /** The first matching binding is the one at `i` when it matches and none before it does. */
  lemma FirstMatchAt(e: KeyEvent, bs: seq<(KeyboardShortcut, Action)>, i: int)
    requires 0 <= i < |bs| && MatchesShortcut(e, bs[i].0)
    requires forall j :: 0 <= j < i ==> !MatchesShortcut(e, bs[j].0)
    ensures FirstMatch(e, bs) == Some(bs[i].1)
  {
    var r := FirstMatch(e, bs);
    var k :| 0 <= k < |bs| && MatchesShortcut(e, bs[k].0) && r.value == bs[k].1
             && forall j :: 0 <= j < k ==> !MatchesShortcut(e, bs[j].0);
    assert k == i;
  }

  /** Under the default bindings the space bar picks the hand tool (the binding is written
      "space"). */
  lemma DefaultSpaceIsHand()
    ensures Dispatch(true, KeyEvent(" ", false, false, false, false, None), Defaults.shortcuts) == Some(Tool(HandTool))
  {
    var bs := Bindings(Defaults.shortcuts);
    var space := KeyEvent(" ", false, false, false, false, None);
    assert |Text.Lower("p")| == 1 && |Text.Lower("h")| == 1 && |Text.Lower("e")| == 1;
    assert Text.Lower("space") == "space";
    FirstMatchAt(space, bs, 3);
  }

  /** Under the default bindings Ctrl+Z undoes even when the key arrives upper-case. */
  lemma DefaultCtrlZUndoes()
    ensures Dispatch(true, KeyEvent("Z", true, false, false, false, None), Defaults.shortcuts) == Some(Canvas(UndoAction))
  {
    var bs := Bindings(Defaults.shortcuts);
    var undo := KeyEvent("Z", true, false, false, false, None);
    assert Text.Lower("Z") == "z" && Text.Lower("z") == "z";
    assert forall j :: 0 <= j < 4 ==> !ModifiersMatch(undo, bs[j].0);
    FirstMatchAt(undo, bs, 4);
  }

  /** Under the default bindings Ctrl+Shift+Z does nothing: Shift must match too, and no
      binding asks for it. */
  lemma DefaultCtrlShiftZIgnored()
    ensures Dispatch(true, KeyEvent("z", true, false, true, false, None), Defaults.shortcuts).None?
  {
    var bs := Bindings(Defaults.shortcuts);
    var shifted := KeyEvent("z", true, false, true, false, None);
    assert forall i :: 0 <= i < 14 ==> !ModifiersMatch(shifted, bs[i].0);
  }

  /** `executeToolShortcut`: the tool a shortcut selects. */
  function ToolFor(t: ToolShortcut, drawing: DrawingSettings): (tool: DrawingTool)
    ensures tool.kind == (match t case PenTool => Pen case HighlighterTool => Highlighter
                                  case EraserTool => Eraser case HandTool => Hand)
    ensures tool.opacity == (if t == HighlighterTool then 0.5 else 1.0)
    ensures tool.size == (if t == HandTool then 1.0 else drawing.defaultBrushSize)
  {
    match t
    case PenTool => DrawingTool(Pen, drawing.defaultBrushSize, 1.0)
    case HighlighterTool => DrawingTool(Highlighter, drawing.defaultBrushSize, 0.5)
    case EraserTool => DrawingTool(Eraser, drawing.defaultBrushSize, 1.0)
    case HandTool => DrawingTool(Hand, 1.0, 1.0)
  }

  /** The point zoomed about: the canvas centre, or (400, 300) when there is no canvas or a
      dimension is zero. */
  function ZoomCentre(width: Option<real>, height: Option<real>): (c: Point)
    ensures width.Some? && width.value != 0.0 ==> c.x * 2.0 == width.value
    ensures !(width.Some? && width.value != 0.0) ==> c.x == 400.0
    ensures height.Some? && height.value != 0.0 ==> c.y * 2.0 == height.value
    ensures !(height.Some? && height.value != 0.0) ==> c.y == 300.0
  {
    Point(if width.Some? && width.value != 0.0 then width.value / 2.0 else 400.0,
          if height.Some? && height.value != 0.0 then height.value / 2.0 else 300.0, None)
  }

  const ZoomInFactor: real := 1.2
  const ZoomOutFactor: real := 0.8

  /** Zooming in and then out about the same point does not return to the old scale: away
      from the limits the zoom ends at 0.96 times where it started. */
  lemma ZoomInThenOut(v: Viewport, c: Point)
    requires MinZoom <= v.zoom && v.zoom * ZoomInFactor <= MaxZoom && MinZoom <= v.zoom * 0.96
    ensures ZoomAt(v, c, ZoomInFactor).zoom == v.zoom * ZoomInFactor
    ensures ZoomAt(ZoomAt(v, c, ZoomInFactor), c, ZoomOutFactor).zoom == v.zoom * 0.96
  {
    ZoomAtKeepsFocus(v, c, ZoomInFactor);
    var w := ZoomAt(v, c, ZoomInFactor);
    assert w.zoom * ZoomOutFactor == v.zoom * 0.96;
    ZoomAtKeepsFocus(w, c, ZoomOutFactor);
  }

  /** `handleKeyboardEvent` followed by the chosen action's effect on the drawing store.
      `confirmed` is the answer of the clear dialog; the canvas size is optional. */
  method HandleKeyboardEvent(store: DrawingStore, settings: AppSettings, e: KeyEvent,
                             canvasWidth: Option<real>, canvasHeight: Option<real>,
                             confirmed: bool, eventId: string, now: int)
    returns (action: Option<Action>, signal: Signal)
    requires store.Valid()
    modifies store
    ensures store.Valid()
    ensures action == Dispatch(settings.accessibility.enableKeyboardShortcuts, e, settings.shortcuts)
    ensures action.None? ==> store.State() == old(store.State()) && signal == NoSignal
    ensures action.Some? && (action.value.Tool? || action.value.Canvas?) && action.value != Canvas(SaveAction) ==>
      signal == NoSignal
    ensures action.Some? && action.value.Tool? ==>
      store.State() == old(store.State()).(currentTool := ToolFor(action.value.tool, settings.drawing))
    ensures action == Some(Canvas(UndoAction)) ==>
      store.State() == Undone(old(store.State()), eventId, now) && store.Timeline() == History.Undo(old(store.Timeline()))
    ensures action == Some(Canvas(RedoAction)) ==>
      store.State() == Redone(old(store.State()), eventId, now) && store.Timeline() == History.Redo(old(store.Timeline()))
    ensures action == Some(Canvas(ClearAction)) && confirmed ==>
      store.State() == Emitted(WithStrokes(old(store.State()), []), eventId, ClearData, now)
    ensures action == Some(Canvas(ClearAction)) && !confirmed ==> store.State() == old(store.State())
    ensures action == Some(Canvas(ZoomInAction)) ==>
      store.State() == Zoomed(old(store.State()), ZoomCentre(canvasWidth, canvasHeight), ZoomInFactor)
    ensures action == Some(Canvas(ZoomOutAction)) ==>
      store.State() == Zoomed(old(store.State()), ZoomCentre(canvasWidth, canvasHeight), ZoomOutFactor)
    ensures action == Some(Canvas(ResetZoomAction)) ==>
      store.State() == old(store.State()).(panX := 0.0, panY := 0.0, zoom := 1.0)
    ensures action == Some(Canvas(SaveAction)) ==> store.State() == old(store.State()) && signal == KeyboardSave
    ensures action.Some? && action.value.UI? ==>
      store.State() == old(store.State())
      && signal == (match action.value.ui case ToggleSidebar => ToggleSidebarEvent
                                          case OpenSettings => NavigateToSettings
                                          case ToggleFullscreen => FullscreenToggle)
  {
    action := Dispatch(settings.accessibility.enableKeyboardShortcuts, e, settings.shortcuts);
    signal := NoSignal;
    if action.None? {
      return;
    }
    match action.value {
      case Tool(t) =>
        store.SetTool(ToolFor(t, settings.drawing));
      case Canvas(c) =>
        match c {
          case UndoAction => store.Undo(eventId, now);
          case RedoAction => store.Redo(eventId, now);
          case ClearAction =>
            if confirmed {
              store.Clear(eventId, now);
            }
          case ZoomInAction => store.ZoomAtPoint(ZoomCentre(canvasWidth, canvasHeight), ZoomInFactor);
          case ZoomOutAction => store.ZoomAtPoint(ZoomCentre(canvasWidth, canvasHeight), ZoomOutFactor);
          case ResetZoomAction => store.ResetView();
          case SaveAction => signal := KeyboardSave;
        }
      case UI(u) =>
        match u {
          case ToggleSidebar => signal := ToggleSidebarEvent;
          case OpenSettings => signal := NavigateToSettings;
          case ToggleFullscreen => signal := FullscreenToggle;
        }
    }
  }
}
