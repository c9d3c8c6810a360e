/** Application settings: the full record, the partial record that loaded files and update
    requests carry, the defaults, and the two spread-based merges that server and client
    share (filling from the defaults, and applying an update). A field of a partial record
    that is `None` is a key the object does not have. */
module Settings {
  import opened Wrappers

  /** A key binding; an absent modifier counts as not pressed. */
  datatype KeyboardShortcut = KeyboardShortcut(key: string, ctrl: Option<bool>, alt: Option<bool>, shift: Option<bool>, meta: Option<bool>)

  datatype DrawingSettings = DrawingSettings(defaultTool: string, defaultBrushSize: real, defaultColor: string, smoothStrokes: bool)
  datatype UISettings = UISettings(darkMode: bool, animateTransitions: bool)
  datatype CollaborationSettings = CollaborationSettings(showOtherCursors: bool, enableNotifications: bool)
  datatype AccountSettings = AccountSettings(profileColor: string)
  datatype AccessibilitySettings = AccessibilitySettings(highContrast: bool, increaseFontSize: bool, enableKeyboardShortcuts: bool)
  datatype ToolShortcuts = ToolShortcuts(pen: KeyboardShortcut, highlighter: KeyboardShortcut, eraser: KeyboardShortcut, hand: KeyboardShortcut)
  datatype CanvasShortcuts = CanvasShortcuts(
    undo: KeyboardShortcut, redo: KeyboardShortcut, clear: KeyboardShortcut, zoomIn: KeyboardShortcut,
    zoomOut: KeyboardShortcut, resetZoom: KeyboardShortcut, save: KeyboardShortcut)
  datatype UIShortcuts = UIShortcuts(toggleSidebar: KeyboardShortcut, settings: KeyboardShortcut, fullscreen: KeyboardShortcut)
  datatype ShortcutSettings = ShortcutSettings(tools: ToolShortcuts, canvas: CanvasShortcuts, ui: UIShortcuts)

  datatype AppSettings = AppSettings(
    version: string,
    exportDate: Option<string>,
    drawing: DrawingSettings,
    ui: UISettings,
    collaboration: CollaborationSettings,
    account: AccountSettings,
    accessibility: AccessibilitySettings,
    shortcuts: ShortcutSettings)

  datatype PartialDrawing = PartialDrawing(defaultTool: Option<string>, defaultBrushSize: Option<real>, defaultColor: Option<string>, smoothStrokes: Option<bool>)
  datatype PartialUI = PartialUI(darkMode: Option<bool>, animateTransitions: Option<bool>)
  datatype PartialCollaboration = PartialCollaboration(showOtherCursors: Option<bool>, enableNotifications: Option<bool>)
  datatype PartialAccount = PartialAccount(profileColor: Option<string>)
  datatype PartialAccessibility = PartialAccessibility(highContrast: Option<bool>, increaseFontSize: Option<bool>, enableKeyboardShortcuts: Option<bool>)
  datatype PartialTools = PartialTools(pen: Option<KeyboardShortcut>, highlighter: Option<KeyboardShortcut>, eraser: Option<KeyboardShortcut>, hand: Option<KeyboardShortcut>)
  datatype PartialCanvas = PartialCanvas(
    undo: Option<KeyboardShortcut>, redo: Option<KeyboardShortcut>, clear: Option<KeyboardShortcut>, zoomIn: Option<KeyboardShortcut>,
    zoomOut: Option<KeyboardShortcut>, resetZoom: Option<KeyboardShortcut>, save: Option<KeyboardShortcut>)
  datatype PartialUIShortcuts = PartialUIShortcuts(toggleSidebar: Option<KeyboardShortcut>, settings: Option<KeyboardShortcut>, fullscreen: Option<KeyboardShortcut>)
  datatype PartialShortcuts = PartialShortcuts(tools: Option<PartialTools>, canvas: Option<PartialCanvas>, ui: Option<PartialUIShortcuts>)

  datatype PartialSettings = PartialSettings(
    version: Option<string>,
    exportDate: Option<string>,
    drawing: Option<PartialDrawing>,
    ui: Option<PartialUI>,
    collaboration: Option<PartialCollaboration>,
    account: Option<PartialAccount>,
    accessibility: Option<PartialAccessibility>,
    shortcuts: Option<PartialShortcuts>)

  function Key(k: string): KeyboardShortcut { KeyboardShortcut(k, None, None, None, None) }
  function Ctrl(k: string): KeyboardShortcut { KeyboardShortcut(k, Some(true), None, None, None) }
  function Alt(k: string): KeyboardShortcut { KeyboardShortcut(k, None, Some(true), None, None) }

  /** `DEFAULT_SETTINGS`. */
  const Defaults: AppSettings := AppSettings(
    "1.0.0",
    None,
    DrawingSettings("pen", 2.0, "#000000", true),
    UISettings(false, true),
    CollaborationSettings(true, true),
    AccountSettings("#3498db"),
    AccessibilitySettings(false, false, true),
    ShortcutSettings(
      ToolShortcuts(Key("p"), Key("h"), Key("e"), Key("space")),
      CanvasShortcuts(Ctrl("z"), Ctrl("y"), Alt("Delete"), Ctrl("="), Ctrl("-"), Ctrl("0"), Ctrl("s")),
      UIShortcuts(Ctrl("b"), Ctrl(","), Alt("f"))))

  /** `p.f ?? base` for a key that is either present or absent. */
  function Pick<T>(base: T, p: Option<T>): T {
    if p.Some? then p.value else base
  }

  // `{ ...base, ...(p || {}) }` for each section and shortcut group.

  function MergeDrawing(base: DrawingSettings, p: Option<PartialDrawing>): DrawingSettings {
    if p.None? then base
    else DrawingSettings(Pick(base.defaultTool, p.value.defaultTool), Pick(base.defaultBrushSize, p.value.defaultBrushSize),
                         Pick(base.defaultColor, p.value.defaultColor), Pick(base.smoothStrokes, p.value.smoothStrokes))
  }

  function MergeUI(base: UISettings, p: Option<PartialUI>): UISettings {
    if p.None? then base
    else UISettings(Pick(base.darkMode, p.value.darkMode), Pick(base.animateTransitions, p.value.animateTransitions))
  }

  function MergeCollaboration(base: CollaborationSettings, p: Option<PartialCollaboration>): CollaborationSettings {
    if p.None? then base
    else CollaborationSettings(Pick(base.showOtherCursors, p.value.showOtherCursors), Pick(base.enableNotifications, p.value.enableNotifications))
  }

  function MergeAccount(base: AccountSettings, p: Option<PartialAccount>): AccountSettings {
    if p.None? then base else AccountSettings(Pick(base.profileColor, p.value.profileColor))
  }

  function MergeAccessibility(base: AccessibilitySettings, p: Option<PartialAccessibility>): AccessibilitySettings {
    if p.None? then base
    else AccessibilitySettings(Pick(base.highContrast, p.value.highContrast), Pick(base.increaseFontSize, p.value.increaseFontSize),
                               Pick(base.enableKeyboardShortcuts, p.value.enableKeyboardShortcuts))
  }

  function MergeTools(base: ToolShortcuts, p: Option<PartialTools>): ToolShortcuts {
    if p.None? then base
    else ToolShortcuts(Pick(base.pen, p.value.pen), Pick(base.highlighter, p.value.highlighter),
                       Pick(base.eraser, p.value.eraser), Pick(base.hand, p.value.hand))
  }

  function MergeCanvas(base: CanvasShortcuts, p: Option<PartialCanvas>): CanvasShortcuts {
    if p.None? then base
    else CanvasShortcuts(Pick(base.undo, p.value.undo), Pick(base.redo, p.value.redo), Pick(base.clear, p.value.clear),
                         Pick(base.zoomIn, p.value.zoomIn), Pick(base.zoomOut, p.value.zoomOut),
                         Pick(base.resetZoom, p.value.resetZoom), Pick(base.save, p.value.save))
  }

  function MergeUIShortcuts(base: UIShortcuts, p: Option<PartialUIShortcuts>): UIShortcuts {
    if p.None? then base
    else UIShortcuts(Pick(base.toggleSidebar, p.value.toggleSidebar), Pick(base.settings, p.value.settings),
                     Pick(base.fullscreen, p.value.fullscreen))
  }

  /** The shortcut groups are merged one level deeper: each group separately, binding by
      binding (a binding itself is replaced whole). */
  function MergeShortcuts(base: ShortcutSettings, p: Option<PartialShortcuts>): ShortcutSettings {
    var groups := if p.Some? then p.value else PartialShortcuts(None, None, None);
    ShortcutSettings(MergeTools(base.tools, groups.tools), MergeCanvas(base.canvas, groups.canvas),
                     MergeUIShortcuts(base.ui, groups.ui))
  }

  /** `validateAndMergeSettings`: every section is the default section overridden by the
      loaded keys; a falsy `version` falls back to the default; `exportDate` is copied. */
  function ValidateAndMerge(loaded: PartialSettings): (r: AppSettings)
    ensures r.version != ""
    ensures loaded.version.Some? && loaded.version.value != "" ==> r.version == loaded.version.value
    ensures r.exportDate == loaded.exportDate
  {
    AppSettings(
      if loaded.version.Some? && loaded.version.value != "" then loaded.version.value else Defaults.version,
      loaded.exportDate,
      MergeDrawing(Defaults.drawing, loaded.drawing),
      MergeUI(Defaults.ui, loaded.ui),
      MergeCollaboration(Defaults.collaboration, loaded.collaboration),
      MergeAccount(Defaults.account, loaded.account),
      MergeAccessibility(Defaults.accessibility, loaded.accessibility),
      MergeShortcuts(Defaults.shortcuts, loaded.shortcuts))
  }

  /** `{ ...current, ...updates, <section>: merged, ... }`: the update's keys win, sections
      and shortcut groups are merged key by key. */
  function MergeUpdates(current: AppSettings, updates: PartialSettings): (r: AppSettings)
    ensures r.version == (if updates.version.Some? then updates.version.value else current.version)
    ensures updates.exportDate.None? ==> r.exportDate == current.exportDate
    ensures updates.shortcuts.None? ==> r.shortcuts == current.shortcuts
  {
    AppSettings(
      Pick(current.version, updates.version),
      if updates.exportDate.Some? then updates.exportDate else current.exportDate,
      MergeDrawing(current.drawing, updates.drawing),
      MergeUI(current.ui, updates.ui),
      MergeCollaboration(current.collaboration, updates.collaboration),
      MergeAccount(current.account, updates.account),
      MergeAccessibility(current.accessibility, updates.accessibility),
      MergeShortcuts(current.shortcuts, updates.shortcuts))
  }

  /** The partial record holding no key at all. */
  const NoKeys: PartialSettings := PartialSettings(None, None, None, None, None, None, None, None)

  /** Every key of a full record, as a partial one. */
  function AllKeys(s: AppSettings): PartialSettings {
    PartialSettings(
      Some(s.version), s.exportDate,
      Some(PartialDrawing(Some(s.drawing.defaultTool), Some(s.drawing.defaultBrushSize), Some(s.drawing.defaultColor), Some(s.drawing.smoothStrokes))),
      Some(PartialUI(Some(s.ui.darkMode), Some(s.ui.animateTransitions))),
      Some(PartialCollaboration(Some(s.collaboration.showOtherCursors), Some(s.collaboration.enableNotifications))),
      Some(PartialAccount(Some(s.account.profileColor))),
      Some(PartialAccessibility(Some(s.accessibility.highContrast), Some(s.accessibility.increaseFontSize), Some(s.accessibility.enableKeyboardShortcuts))),
      Some(PartialShortcuts(
        Some(PartialTools(Some(s.shortcuts.tools.pen), Some(s.shortcuts.tools.highlighter), Some(s.shortcuts.tools.eraser), Some(s.shortcuts.tools.hand))),
        Some(PartialCanvas(Some(s.shortcuts.canvas.undo), Some(s.shortcuts.canvas.redo), Some(s.shortcuts.canvas.clear),
                           Some(s.shortcuts.canvas.zoomIn), Some(s.shortcuts.canvas.zoomOut), Some(s.shortcuts.canvas.resetZoom),
                           Some(s.shortcuts.canvas.save))),
        Some(PartialUIShortcuts(Some(s.shortcuts.ui.toggleSidebar), Some(s.shortcuts.ui.settings), Some(s.shortcuts.ui.fullscreen))))))
  }

  /** Missing sections are entirely default: an empty file yields the defaults. */
  lemma EmptyLoadIsDefaults()
    ensures ValidateAndMerge(NoKeys) == Defaults
  {
  }

  /** A loaded file with every key is taken as it is, unless its `version` is empty (falsy),
      which falls back to the default version. */
  lemma FullLoadIsKept(s: AppSettings)
    ensures s.version != "" ==> ValidateAndMerge(AllKeys(s)) == s
    ensures s.version == "" ==> ValidateAndMerge(AllKeys(s)) == s.(version := Defaults.version)
  {
  }

  /** Each section of the merge is the default section with the loaded keys laid over it;
      a section the file lacks is the default one, and so is every binding a partial
      shortcut group leaves out. */
  lemma ValidateAndMergeSections(loaded: PartialSettings)
    ensures var r := ValidateAndMerge(loaded);
      && (loaded.drawing.None? ==> r.drawing == Defaults.drawing)
      && (loaded.ui.None? ==> r.ui == Defaults.ui)
      && (loaded.collaboration.None? ==> r.collaboration == Defaults.collaboration)
      && (loaded.account.None? ==> r.account == Defaults.account)
      && (loaded.accessibility.None? ==> r.accessibility == Defaults.accessibility)
      && (loaded.shortcuts.None? ==> r.shortcuts == Defaults.shortcuts)
      && r.exportDate == loaded.exportDate
      && (loaded.version.None? || loaded.version == Some("") ==> r.version == Defaults.version)
      && (loaded.version.Some? && loaded.version.value != "" ==> r.version == loaded.version.value)
      && (loaded.shortcuts.Some? && loaded.shortcuts.value.tools.Some? ==>
            var t := loaded.shortcuts.value.tools.value;
            && (t.pen.None? ==> r.shortcuts.tools.pen == Defaults.shortcuts.tools.pen)
            && (t.highlighter.None? ==> r.shortcuts.tools.highlighter == Defaults.shortcuts.tools.highlighter)
            && (t.eraser.None? ==> r.shortcuts.tools.eraser == Defaults.shortcuts.tools.eraser)
            && (t.hand.None? ==> r.shortcuts.tools.hand == Defaults.shortcuts.tools.hand))
      && (loaded.drawing.Some? ==>
            var d := loaded.drawing.value;
            && (d.defaultTool.Some? ==> r.drawing.defaultTool == d.defaultTool.value)
            && (d.defaultTool.None? ==> r.drawing.defaultTool == Defaults.drawing.defaultTool)
            && (d.smoothStrokes.Some? ==> r.drawing.smoothStrokes == d.smoothStrokes.value)
            && (d.smoothStrokes.None? ==> r.drawing.smoothStrokes == Defaults.drawing.smoothStrokes))
  {
  }

  /** An update without keys changes nothing. */
  lemma MergeUpdatesNoKeys(current: AppSettings)
    ensures MergeUpdates(current, NoKeys) == current
  {
  }

  /** An update with every key replaces everything (an `exportDate` it lacks is kept). */
  lemma MergeUpdatesAllKeys(current: AppSettings, full: AppSettings)
    ensures full.exportDate.Some? ==> MergeUpdates(current, AllKeys(full)) == full
    ensures full.exportDate.None? ==> MergeUpdates(current, AllKeys(full)) == full.(exportDate := current.exportDate)
  {
    var r := MergeUpdates(current, AllKeys(full));
    assert r.drawing == full.drawing;
    assert r.shortcuts.tools == full.shortcuts.tools;
    assert r.shortcuts.canvas == full.shortcuts.canvas;
    assert r.shortcuts.ui == full.shortcuts.ui;
  }

  /** Applying the same update twice is applying it once. */
  lemma MergeUpdatesIdempotent(current: AppSettings, updates: PartialSettings)
    ensures MergeUpdates(MergeUpdates(current, updates), updates) == MergeUpdates(current, updates)
  {
    var once := MergeUpdates(current, updates);
    var twice := MergeUpdates(once, updates);
    assert twice.drawing == once.drawing;
    assert twice.shortcuts.tools == once.shortcuts.tools;
    assert twice.shortcuts.canvas == once.shortcuts.canvas;
    assert twice.shortcuts.ui == once.shortcuts.ui;
  }

  /** Every field the update does not name keeps its current value, down to the single
      bindings inside each shortcut group. */
  lemma MergeUpdatesKeepsAbsent(current: AppSettings, updates: PartialSettings)
    ensures var r := MergeUpdates(current, updates);
      && (updates.version.None? ==> r.version == current.version)
      && (updates.exportDate.None? ==> r.exportDate == current.exportDate)
      && (updates.drawing.None? ==> r.drawing == current.drawing)
      && (updates.ui.None? ==> r.ui == current.ui)
      && (updates.collaboration.None? ==> r.collaboration == current.collaboration)
      && (updates.account.None? ==> r.account == current.account)
      && (updates.accessibility.None? ==> r.accessibility == current.accessibility)
      && (updates.shortcuts.None? ==> r.shortcuts == current.shortcuts)
      && (updates.shortcuts.Some? ==>
            var g := updates.shortcuts.value;
            && (g.tools.None? ==> r.shortcuts.tools == current.shortcuts.tools)
            && (g.canvas.None? ==> r.shortcuts.canvas == current.shortcuts.canvas)
            && (g.ui.None? ==> r.shortcuts.ui == current.shortcuts.ui)
            && (g.tools.Some? ==>
                  && (g.tools.value.pen.None? ==> r.shortcuts.tools.pen == current.shortcuts.tools.pen)
                  && (g.tools.value.highlighter.None? ==> r.shortcuts.tools.highlighter == current.shortcuts.tools.highlighter)
                  && (g.tools.value.eraser.None? ==> r.shortcuts.tools.eraser == current.shortcuts.tools.eraser)
                  && (g.tools.value.hand.None? ==> r.shortcuts.tools.hand == current.shortcuts.tools.hand)))
      && (updates.drawing.Some? ==>
            && (updates.drawing.value.defaultBrushSize.None? ==> r.drawing.defaultBrushSize == current.drawing.defaultBrushSize)
            && (updates.drawing.value.defaultBrushSize.Some? ==> r.drawing.defaultBrushSize == updates.drawing.value.defaultBrushSize.value))
  {
  }

  /** Filling from the defaults is applying the loaded keys as an update to the defaults,
      except for the falsy-version fallback. */
  lemma ValidateIsUpdateOfDefaults(loaded: PartialSettings)
    requires loaded.version.None? || loaded.version.value != ""
    ensures ValidateAndMerge(loaded) == MergeUpdates(Defaults, loaded)
  {
  }
}
