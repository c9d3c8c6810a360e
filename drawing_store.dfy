/** The drawing client's store: the stroke list, the undo/redo snapshots, the view, the stroke
    being drawn, and the events handed to the sender. Canvas drawing is not modelled (every
    `redraw` is a no-op); ids, clocks and `Math.random` are parameters. */
module DrawingStoreModule {
  import opened Wrappers
  import opened Types
  import opened Geometry
  import opened Pipelines
  import History
  import opened Reconcile
  import opened Sorting

  /** The colours a session may be given at random. */
  const SessionPalette: seq<string> :=
    ["#e74c3c", "#3498db", "#2ecc71", "#f39c12", "#9b59b6", "#1abc9c", "#e67e22", "#34495e"]

  /** Every field of the store, so that a method can state its whole new state at once. */
  datatype StoreState = StoreState(
    strokes: seq<DrawingStroke>,
    history: seq<seq<DrawingStroke>>,
    historyIndex: int,
    eventSequence: int,
    panX: real, panY: real, zoom: real,
    highlightedStrokes: seq<string>,
    rawPoints: seq<Point>,
    currentTool: DrawingTool,
    currentColor: string,
    isDrawing: bool,
    currentStroke: Option<DrawingStroke>,
    sessionId: string,
    sessionColor: string,
    currentBoardId: Option<string>,
    hasContext: bool,
    hasSender: bool,
    sent: seq<DrawingEvent>)

  /** `this.currentBoardId || 'unknown'`: an unset or empty board id becomes "unknown". */
  function BoardIdOrUnknown(id: Option<string>): (r: string)
    ensures r != ""
    ensures id.Some? && id.value != "" ==> r == id.value
  {
    if id.Some? && id.value != "" then id.value else "unknown"
  }

  /** The ids of the hit strokes, in stroke order, each once (the insertion order of the
      `Set` that `getStrokesAtPoint` fills). */
  function HitIds(strokes: seq<DrawingStroke>, p: Point, radius: real): (ids: seq<string>)
    ensures forall id :: id in ids <==>
      exists k :: 0 <= k < |strokes| && strokes[k].id == id && StrokeHit(strokes[k], p, radius)
    ensures forall i, j :: 0 <= i < j < |ids| ==> ids[i] != ids[j]
  {
    if strokes == [] then []
    else
      var prefix := strokes[..|strokes| - 1];
      var last := strokes[|strokes| - 1];
      var prev := HitIds(prefix, p, radius);
      assert forall k :: 0 <= k < |prefix| ==> prefix[k] == strokes[k];
      if StrokeHit(last, p, radius) && last.id !in prev then prev + [last.id] else prev
  }

  /** With distinct stroke ids, erasing at a point keeps exactly the strokes it does not hit. */
  lemma EraseKeepsUnhit(strokes: seq<DrawingStroke>, p: Point, radius: real)
    requires forall i, j :: 0 <= i < j < |strokes| ==> strokes[i].id != strokes[j].id
    ensures forall s :: s in RemoveIds(strokes, HitIds(strokes, p, radius)) <==>
      s in strokes && !StrokeHit(s, p, radius)
  {
    var ids := HitIds(strokes, p, radius);
    forall s | s in strokes
      ensures s.id in ids <==> StrokeHit(s, p, radius)
    {
      var k :| 0 <= k < |strokes| && strokes[k] == s;
      if s.id in ids {
        var m :| 0 <= m < |strokes| && strokes[m].id == s.id && StrokeHit(strokes[m], p, radius);
        assert m == k;
      }
    }
  }

  /** The store with `s` as its strokes and a snapshot of them recorded (`addToHistory`). */
  function WithStrokes(st: StoreState, s: seq<DrawingStroke>): StoreState {
    var t := History.Record(History.Timeline(st.history, st.historyIndex), s);
    st.(strokes := s, history := t.snapshots, historyIndex := t.index)
  }

  /** The snapshots are well formed, the snapshot on screen is the stroke list (the empty
      list before the first one), and the zoom stays within its bounds. */
  predicate ValidState(st: StoreState) {
    History.Valid(History.Timeline(st.history, st.historyIndex))
    && (st.historyIndex >= 0 ==> st.history[st.historyIndex] == st.strokes)
    && (st.historyIndex == -1 ==> st.strokes == [])
    && MinZoom <= st.zoom <= MaxZoom
  }

  /** Recording the strokes shown keeps the store well formed, whatever they are. */
  lemma WithStrokesValid(st: StoreState, s: seq<DrawingStroke>)
    requires ValidState(st)
    ensures ValidState(WithStrokes(st, s))
  {
    History.RecordSpec(History.Timeline(st.history, st.historyIndex), s);
  }

  /** The event the store emits next: its board (or "unknown"), its session, the current
      sequence number. */
  function NextEvent(st: StoreState, eventId: string, data: EventData, now: int): DrawingEvent {
    DrawingEvent(eventId, BoardIdOrUnknown(st.currentBoardId), st.sessionId, data, now, st.eventSequence)
  }

  /** The store after emitting an event: the sequence number advances whether or not a
      sender is installed, and the event reaches the sender only if one is. */
  function Emitted(st: StoreState, eventId: string, data: EventData, now: int): StoreState {
    st.(eventSequence := st.eventSequence + 1,
        sent := if st.hasSender then st.sent + [NextEvent(st, eventId, data, now)] else st.sent)
  }

  /** A finished stroke: its points go through the whole pipeline when smoothing is on and
      more than two raw points were collected, and stay as drawn otherwise. */
  function Finished(s: DrawingStroke, raw: seq<Point>, smooth: bool): DrawingStroke {
    if smooth && |raw| > 2 then s.(points := FinalPoints(raw)) else s
  }

  /** The store after `zoomAt(screenPoint, zoomDelta)`: the view becomes `ZoomAt` and
      nothing else changes. */
  function Zoomed(st: StoreState, screenPoint: Point, zoomDelta: real): StoreState
    requires st.zoom != 0.0
  {
    var v := ZoomAt(Viewport(st.panX, st.panY, st.zoom), screenPoint, zoomDelta);
    st.(panX := v.panX, panY := v.panY, zoom := v.zoom)
  }

  /** The store after `undo`: when the index is positive, the snapshot before it is shown
      and an undo event carries the new index and the strokes the newer snapshot had
      beyond it; otherwise nothing changes and nothing is emitted. */
  function Undone(st: StoreState, eventId: string, now: int): StoreState
    requires ValidState(st)
  {
    if st.historyIndex > 0 then
      var shown := st.history[st.historyIndex - 1];
      Emitted(st.(strokes := shown, historyIndex := st.historyIndex - 1),
              eventId, UndoData(st.historyIndex - 1, History.SliceFrom(st.strokes, |shown|)), now)
    else st
  }

  /** The store after `redo`: when there is a later snapshot, it is shown and a redo event
      carries the strokes it has beyond the snapshot before it; otherwise nothing
      happens. */
  function Redone(st: StoreState, eventId: string, now: int): StoreState
    requires ValidState(st)
  {
    if st.historyIndex < |st.history| - 1 then
      var i := st.historyIndex + 1;
      var shown := st.history[i];
      var previous := if i > 0 then st.history[i - 1] else [];
      Emitted(st.(strokes := shown, historyIndex := i), eventId, RedoData(Some(History.SliceFrom(shown, |previous|))), now)
    else st
  }

  /** The store after `deleteStrokesAtPoint(point)`. */
  function Erased(st: StoreState, point: Point, eventId: string, now: int): StoreState
    requires st.zoom != 0.0
  {
    var ids := HitIds(st.strokes, ScreenToCanvas(Viewport(st.panX, st.panY, st.zoom), point),
                      st.currentTool.size);
    if ids == [] then st
    else Emitted(WithStrokes(st, RemoveIds(st.strokes, ids)), eventId, StrokeDeletedData(Some(ids)), now)
  }

  class DrawingStore {
    var strokes: seq<DrawingStroke>
    var history: seq<seq<DrawingStroke>>
    var historyIndex: int
    var eventSequence: int
    var panX: real
    var panY: real
    var zoom: real
    var highlightedStrokes: seq<string>
    var rawPoints: seq<Point>
    var currentTool: DrawingTool
    var currentColor: string
    var isDrawing: bool
    var currentStroke: Option<DrawingStroke>
    var sessionId: string
    var sessionColor: string
    var currentBoardId: Option<string>
    /** Whether a 2D canvas context is attached. */
    var hasContext: bool
    /** Whether a send function has been installed. */
    var hasSender: bool
    /** The events handed to the send function, oldest first. */
    var sent: seq<DrawingEvent>

    function State(): StoreState
      reads this
    {
      StoreState(strokes, history, historyIndex, eventSequence, panX, panY, zoom,
                 highlightedStrokes, rawPoints, currentTool, currentColor, isDrawing,
                 currentStroke, sessionId, sessionColor, currentBoardId, hasContext,
                 hasSender, sent)
    }

    function Timeline(): History.Timeline
      reads this
    {
      History.Timeline(history, historyIndex)
    }

    function View(): Viewport
      reads this
    {
      Viewport(panX, panY, zoom)
    }

    predicate Valid()
      reads this
    {
      ValidState(State())
    }

    /** A fresh store: pen of size 2, black, no strokes, no history, identity view, and a
        session colour picked by `random`, a value in [0, 1). */
    constructor(newSessionId: string, random: real)
      requires 0.0 <= random < 1.0
      ensures Valid()
      ensures State() == StoreState([], [], -1, 0, 0.0, 0.0, 1.0, [], [],
                                    DrawingTool(Pen, 2.0, 1.0), "#000000", false, None,
                                    newSessionId, SessionPalette[(random * 8.0).Floor],
                                    None, false, false, [])
      ensures sessionColor in SessionPalette
    {
      strokes := [];
      currentTool := DrawingTool(Pen, 2.0, 1.0);
      currentColor := "#000000";
      isDrawing := false;
      currentStroke := None;
      panX, panY, zoom := 0.0, 0.0, 1.0;
      highlightedStrokes := [];
      rawPoints := [];
      history := [];
      historyIndex := -1;
      eventSequence := 0;
      sessionId := newSessionId;
      sessionColor := SessionPalette[(random * 8.0).Floor];
      currentBoardId := None;
      hasContext := false;
      hasSender := false;
      sent := [];
    }

    /** `initCanvas`: `getContext('2d')` may return null. */
    method InitCanvas(contextAvailable: bool)
      modifies this
      ensures State() == old(State()).(hasContext := contextAvailable)
    {
      hasContext := contextAvailable;
    }

    method SetBoardId(boardId: string)
      modifies this
      ensures State() == old(State()).(currentBoardId := Some(boardId))
    {
      currentBoardId := Some(boardId);
    }

    method SetSendFunction()
      modifies this
      ensures State() == old(State()).(hasSender := true)
    {
      hasSender := true;
    }

    method SetTool(tool: DrawingTool)
      modifies this
      ensures State() == old(State()).(currentTool := tool)
    {
      currentTool := tool;
    }

    method SetColor(color: string)
      modifies this
      ensures State() == old(State()).(currentColor := color)
    {
      currentColor := color;
    }

    // -------------------------------------------------------------------------------------
    // View

    method Pan(deltaX: real, deltaY: real)
      modifies this
      ensures State() == old(State()).(panX := old(panX) + deltaX, panY := old(panY) + deltaY)
    {
      panX := panX + deltaX;
      panY := panY + deltaY;
    }

    /** `zoomAt`: the new view is `ZoomAt` of the old one, which keeps the canvas point
        under `screenPoint` in place (lemma `ZoomAtKeepsFocus`). */
    method ZoomAtPoint(screenPoint: Point, zoomDelta: real)
      requires Valid()
      modifies this
      ensures Valid()
      ensures View() == ZoomAt(old(View()), screenPoint, zoomDelta)
      ensures State() == Zoomed(old(State()), screenPoint, zoomDelta)
    {
      var oldZoom := zoom;
      var newZoom := ClampZoom(oldZoom * zoomDelta);
      if newZoom != oldZoom {
        var canvasPoint := ScreenToCanvas(View(), screenPoint);
        zoom := newZoom;
        var newScreenPoint := CanvasToScreen(View(), canvasPoint);
        panX := panX + (screenPoint.x - newScreenPoint.x);
        panY := panY + (screenPoint.y - newScreenPoint.y);
      }
      assert View() == ZoomAt(old(View()), screenPoint, zoomDelta);
    }

    method ResetView()
      requires Valid()
      modifies this
      ensures Valid()
      ensures State() == old(State()).(panX := 0.0, panY := 0.0, zoom := 1.0)
    {
      panX, panY, zoom := 0.0, 0.0, 1.0;
    }

    // -------------------------------------------------------------------------------------
    // History

    /** `addToHistory`, on the current strokes. */
    method AddToHistory()
      modifies this
      ensures State() == WithStrokes(old(State()), old(strokes))
    {
      history := History.SliceTo(history, historyIndex + 1);
      history := history + [strokes];
      historyIndex := historyIndex + 1;
      if |history| > History.MaxSnapshots {
        history := history[1..];
        historyIndex := historyIndex - 1;
      }
    }

    /** Builds the next event (taking `eventSequence++`) and hands it to the sender, if any. */
    method EmitEvent(eventId: string, data: EventData, now: int)
      modifies this
      ensures State() == Emitted(old(State()), eventId, data, now)
    {
      var event := DrawingEvent(eventId, BoardIdOrUnknown(currentBoardId), sessionId, data, now, eventSequence);
      eventSequence := eventSequence + 1;
      if hasSender {
        sent := sent + [event];
      }
    }

    /** `undo`: when the index is positive, step back, show that snapshot, and emit an undo
        event with the new index and the strokes the newer snapshot had beyond it.
        Otherwise nothing changes and nothing is emitted. */
    method Undo(eventId: string, now: int)
      requires Valid()
      modifies this
      ensures Valid()
      ensures Timeline() == History.Undo(old(Timeline()))
      ensures State() == Undone(old(State()), eventId, now)
    {
      if historyIndex > 0 {
        var previousStrokes := history[historyIndex];
        historyIndex := historyIndex - 1;
        var newStrokes := history[historyIndex];
        var removedStrokes := History.SliceFrom(previousStrokes, |newStrokes|);
        strokes := newStrokes;
        EmitEvent(eventId, UndoData(historyIndex, removedStrokes), now);
      }
    }

    /** `redo`: when there is a later snapshot, step forward, show it, and emit a redo event
        with the strokes it has beyond the snapshot before it. Otherwise nothing happens. */
    method Redo(eventId: string, now: int)
      requires Valid()
      modifies this
      ensures Valid()
      ensures Timeline() == History.Redo(old(Timeline()))
      ensures State() == Redone(old(State()), eventId, now)
    {
      if historyIndex < |history| - 1 {
        historyIndex := historyIndex + 1;
        var newStrokes := history[historyIndex];
        var previousStrokes := if historyIndex > 0 then history[historyIndex - 1] else [];
        var redoStrokes := History.SliceFrom(newStrokes, |previousStrokes|);
        strokes := newStrokes;
        EmitEvent(eventId, RedoData(Some(redoStrokes)), now);
      }
    }

    /** `clear`: empty the strokes, record the snapshot, emit a clear event. */
    method Clear(eventId: string, now: int)
      requires Valid()
      modifies this
      ensures Valid()
      ensures State() == Emitted(WithStrokes(old(State()), []), eventId, ClearData, now)
    {
      strokes := [];
      AddToHistory();
      WithStrokesValid(old(State()), []);
      EmitEvent(eventId, ClearData, now);
    }

    // -------------------------------------------------------------------------------------
    // Remote events

    /** `handleDrawingEvent`: the session's own echoes are ignored; other events change the
        strokes by the per-type rule and record a snapshot exactly when the rule acts. */
    method HandleDrawingEvent(event: DrawingEvent)
      requires Valid()
      modifies this
      ensures Valid()
      ensures event.sessionId == old(sessionId) ==> State() == old(State())
      ensures event.sessionId != old(sessionId) && Changes(old(strokes), event.data) ==>
        State() == WithStrokes(old(State()), Apply(old(strokes), event.data))
      ensures !Changes(old(strokes), event.data) ==> State() == old(State())
    {
      if event.sessionId == sessionId {
        return;
      }
      match event.data {
        case StrokeData(stroke) =>
          if stroke.Some? {
            assert Changes(strokes, event.data) && Apply(strokes, event.data) == strokes + [stroke.value];
            Commit(strokes + [stroke.value]);
          }
        case StrokeDeletedData(ids) =>
          if ids.Some? {
            assert Changes(strokes, event.data) && Apply(strokes, event.data) == RemoveIds(strokes, ids.value);
            Commit(RemoveIds(strokes, ids.value));
          }
        case ClearData =>
          assert Changes(strokes, event.data) && Apply(strokes, event.data) == [];
          Commit([]);
        case UndoData(_, _) =>
          if |strokes| > 0 {
            assert Changes(strokes, event.data) && Apply(strokes, event.data) == strokes[..|strokes| - 1];
            Commit(strokes[..|strokes| - 1]);
          }
        case RedoData(more) =>
          if more.Some? {
            var redone := strokes;
            var k := 0;
            while k < |more.value|
              invariant 0 <= k <= |more.value|
              invariant redone == old(strokes) + more.value[..k]
            {
              assert more.value[..k + 1] == more.value[..k] + [more.value[k]];
              redone := redone + [more.value[k]];
              k := k + 1;
            }
            assert more.value[..k] == more.value;
            assert Changes(strokes, event.data) && Apply(strokes, event.data) == redone;
            Commit(redone);
          }
        case CursorData(_) =>
        case EraseData =>
      }
    }

    /** Replaces the strokes and records the snapshot (`strokes = ...; addToHistory()`). */
    method Commit(newStrokes: seq<DrawingStroke>)
      requires Valid()
      modifies this
      ensures Valid()
      ensures State() == WithStrokes(old(State()), newStrokes)
    {
      strokes := newStrokes;
      AddToHistory();
      WithStrokesValid(old(State()), newStrokes);
    }

    /** `handleSyncEvents`: rebuild the strokes from nothing by replaying the events in
        sequence order, record one snapshot, and continue numbering after the largest
        sequence received. The outcome does not depend on the strokes held before. */
    method HandleSyncEvents(events: seq<DrawingEvent>)
      requires Valid()
      modifies this
      ensures Valid()
      ensures var st := WithStrokes(old(State()), Resynced(events));
        State() == st.(eventSequence := if |events| > 0 then MaxSequence(events) + 1 else st.eventSequence)
    {
      var rebuilt := [];
      var sortedEvents := SortBy(events, SequenceOf);
      var i := 0;
      while i < |sortedEvents|
        invariant 0 <= i <= |sortedEvents|
        invariant ApplyAll(rebuilt, sortedEvents[i..]) == Resynced(events)
      {
        assert sortedEvents[i..][1..] == sortedEvents[i + 1..];
        rebuilt := Apply(rebuilt, sortedEvents[i].data);
        i := i + 1;
      }
      Commit(rebuilt);
      if |events| > 0 {
        eventSequence := MaxSequence(events) + 1;
      }
    }

    // -------------------------------------------------------------------------------------
    // Stroke eraser

    /** `getStrokesAtPoint`: the ids of the strokes the eraser (radius = tool size) touches
        at the canvas position of `point`. */
    method GetStrokesAtPoint(point: Point) returns (found: seq<string>)
      requires Valid()
      ensures found == HitIds(strokes, ScreenToCanvas(View(), point), currentTool.size)
    {
      var canvasPoint := ScreenToCanvas(View(), point);
      var eraserRadius := currentTool.size;
      found := [];
      var i := 0;
      while i < |strokes|
        invariant 0 <= i <= |strokes|
        invariant found == HitIds(strokes[..i], canvasPoint, eraserRadius)
      {
        var stroke := strokes[i];
        assert strokes[..i + 1][..i] == strokes[..i];
        var hit := StrokeIntersectsPoint(stroke, canvasPoint, eraserRadius);
        if hit && stroke.id !in found {
          found := found + [stroke.id];
        }
        i := i + 1;
      }
      assert strokes[..i] == strokes;
    }

    /** `deleteStrokesAtPoint`: remove every hit stroke, record a snapshot and emit one
        `stroke_deleted` event listing the hit ids; with no hit, nothing changes. */
    method DeleteStrokesAtPoint(point: Point, eventId: string, now: int)
      requires Valid()
      modifies this
      ensures Valid()
      ensures State() == Erased(old(State()), point, eventId, now)
    {
      var strokeIds := GetStrokesAtPoint(point);
      if |strokeIds| > 0 {
        strokes := RemoveIds(strokes, strokeIds);
        AddToHistory();
        WithStrokesValid(old(State()), RemoveIds(old(strokes), strokeIds));
        EmitEvent(eventId, StrokeDeletedData(Some(strokeIds)), now);
      }
    }

    /** `updateCursor`: with the stroke eraser selected, highlight the strokes under the
        pointer; otherwise drop any highlight. */
    method UpdateCursor(point: Point)
      requires Valid()
      modifies this
      ensures Valid()
      ensures currentTool.kind == StrokeEraser ==>
        State() == old(State()).(highlightedStrokes := HitIds(strokes, ScreenToCanvas(View(), point), currentTool.size))
      ensures currentTool.kind != StrokeEraser ==> State() == old(State()).(highlightedStrokes := [])
    {
      if currentTool.kind == StrokeEraser {
        var newHighlighted := GetStrokesAtPoint(point);
        highlightedStrokes := newHighlighted;
      } else if |highlightedStrokes| > 0 {
        highlightedStrokes := [];
      }
    }

    // -------------------------------------------------------------------------------------
    // Drawing a stroke

    /** `startStroke`: ignored without a canvas context or with the hand tool; the stroke
        eraser erases at the point; any other tool starts a stroke at the canvas position. */
    method StartStroke(point: Point, strokeId: string, eventId: string, now: int)
      requires Valid()
      modifies this
      ensures Valid()
      ensures !old(hasContext) || old(currentTool.kind) == Hand ==> State() == old(State())
      ensures old(hasContext) && old(currentTool.kind) == StrokeEraser ==>
        State() == Erased(old(State()), point, eventId, now)
      ensures old(hasContext) && old(currentTool.kind) !in {Hand, StrokeEraser} ==>
        var p := ScreenToCanvas(View(), point);
        State() == old(State()).(
          rawPoints := [p], isDrawing := true,
          currentStroke := Some(DrawingStroke(strokeId, [p], currentColor, currentTool.size,
                                              currentTool, sessionId, now)))
    {
      if !hasContext || currentTool.kind == Hand {
        return;
      }
      if currentTool.kind == StrokeEraser {
        DeleteStrokesAtPoint(point, eventId, now);
        return;
      }
      var canvasPoint := ScreenToCanvas(View(), point);
      rawPoints := [canvasPoint];
      isDrawing := true;
      currentStroke := Some(DrawingStroke(strokeId, [canvasPoint], currentColor, currentTool.size,
                                          currentTool, sessionId, now));
    }

    /** `addPoint`: while drawing, collect the canvas position; the stroke shown is the
        moving average of the raw points once there are more than two and smoothing is on,
        otherwise the point is appended to it. */
    method AddPoint(point: Point, smooth: bool, eventId: string, now: int)
      requires Valid()
      modifies this
      ensures Valid()
      ensures !old(isDrawing) || old(currentStroke).None? || old(currentTool.kind) == Hand ==>
        State() == old(State())
      ensures old(isDrawing) && old(currentStroke).Some? && old(currentTool.kind) == StrokeEraser ==>
        State() == Erased(old(State()), point, eventId, now)
      ensures old(isDrawing) && old(currentStroke).Some? && old(currentTool.kind) !in {Hand, StrokeEraser} ==>
        var p := ScreenToCanvas(View(), point);
        var raw := old(rawPoints) + [p];
        var s := old(currentStroke).value;
        State() == old(State()).(
          rawPoints := raw,
          currentStroke := Some(s.(points := if smooth && |raw| > 2 then Smoothed(raw, true) else s.points + [p])))
    {
      if !isDrawing || currentStroke.None? || currentTool.kind == Hand {
        return;
      }
      if currentTool.kind == StrokeEraser {
        DeleteStrokesAtPoint(point, eventId, now);
        return;
      }
      var canvasPoint := ScreenToCanvas(View(), point);
      rawPoints := rawPoints + [canvasPoint];
      var stroke := currentStroke.value;
      if smooth && |rawPoints| > 2 {
        var smoothed := SmoothPoints(rawPoints, smooth);
        currentStroke := Some(stroke.(points := smoothed));
      } else {
        currentStroke := Some(stroke.(points := stroke.points + [canvasPoint]));
      }
    }

    /** `endStroke`: finish the points (the full pipeline when smoothing is on and more
        than two raw points were collected), add the stroke, record a snapshot, emit a
        stroke event, and reset the drawing state. */
    method EndStroke(smooth: bool, eventId: string, now: int)
      requires Valid()
      modifies this
      ensures Valid()
      ensures !old(isDrawing) || old(currentStroke).None? ==> State() == old(State())
      ensures old(isDrawing) && old(currentStroke).Some? ==>
        var finished := Finished(old(currentStroke).value, old(rawPoints), smooth);
        State() == Emitted(WithStrokes(old(State()), old(strokes) + [finished]), eventId,
                           StrokeData(Some(finished)), now)
                   .(isDrawing := false, currentStroke := None, rawPoints := [])
    {
      if !isDrawing || currentStroke.None? {
        return;
      }
      var stroke := FinishedStroke(smooth);
      Commit(strokes + [stroke]);
      EmitEvent(eventId, StrokeData(Some(stroke)), now);
      isDrawing := false;
      currentStroke := None;
      rawPoints := [];
    }

    /** The stroke being drawn with its final points. */
    method FinishedStroke(smooth: bool) returns (stroke: DrawingStroke)
      requires currentStroke.Some?
      ensures stroke == Finished(currentStroke.value, rawPoints, smooth)
    {
      stroke := currentStroke.value;
      if smooth && |rawPoints| > 2 {
        var finalPoints := FinishPoints(rawPoints);
        stroke := stroke.(points := finalPoints);
      }
    }
  }
}
