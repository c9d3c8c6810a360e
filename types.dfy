/** The shared records of the drawing protocol: points, tools, strokes, events and sessions. */
module Types {
  import opened Wrappers

  /** A canvas or screen position; `pressure` is optional. */
  datatype Point = Point(x: real, y: real, pressure: Option<real>)

  datatype ToolKind = Pen | Eraser | StrokeEraser | Highlighter | TextTool | Hand

  datatype DrawingTool = DrawingTool(kind: ToolKind, size: real, opacity: real)

  /** A finished stroke: its points are in path order and never change once created. */
  datatype DrawingStroke = DrawingStroke(
    id: string,
    points: seq<Point>,
    color: string,
    width: real,
    tool: DrawingTool,
    sessionId: string,
    timestamp: int)

  /** The `type` of a drawing event together with its `data`. A payload field that is
      `None` stands for data that lacks the key the client looks for (`points`,
      `strokeIds`, `strokes`). */
  datatype EventData =
    | StrokeData(stroke: Option<DrawingStroke>)
    | StrokeDeletedData(strokeIds: Option<seq<string>>)
    | ClearData
    | UndoData(historyIndex: int, removedStrokes: seq<DrawingStroke>)
    | RedoData(strokes: Option<seq<DrawingStroke>>)
    | CursorData(cursor: Point)
    | EraseData

  /** The unit of synchronisation; `sequence` is the per-board ordering key. */
  datatype DrawingEvent = DrawingEvent(
    id: string,
    boardId: string,
    sessionId: string,
    data: EventData,
    timestamp: int,
    sequence: int)

  /** The ordering key of events, as a function value for sorting. */
  function SequenceOf(e: DrawingEvent): int { e.sequence }

  /** A connection's membership in a board; times are milliseconds. */
  datatype BoardSession = BoardSession(
    id: string,
    boardId: string,
    socketId: string,
    sessionColor: string,
    joinedAt: int,
    lastSeen: int,
    cursor: Option<Point>)
}
