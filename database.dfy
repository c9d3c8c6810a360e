/** The server's persistent store: the `boards`, `drawing_events` and `board_sessions` tables
    held in memory, with the queries the socket handler and the REST routes run. Times are
    milliseconds; the clock and insert failures are parameters. */
module BoardDatabase {
  import opened Wrappers
  import opened Types
  import opened Json
  import opened Sorting
  import SqliteText

  /** A `board_sessions` row; the cursor columns are NULL until a cursor is reported. */
  datatype SessionRow = SessionRow(
    id: string,
    boardId: string,
    socketId: string,
    sessionColor: string,
    joinedAt: int,
    lastSeen: int,
    cursorX: Option<real>,
    cursorY: Option<real>)

  function JoinedAtOf(r: SessionRow): int { r.joinedAt }

  /** A session counts as active when it was seen within the last five minutes. */
  const ActiveWindow: int := 5 * 60 * 1000

  /** The columns of `boards`; a board row maps each of them to its stored value. */
  const BoardColumns: set<string> := {"id", "name", "description", "drawing_data", "created_at", "updated_at", "is_public"}

  /** The value sqlite keeps for a bound parameter. The driver binds `null`, numbers and
      strings as they are and booleans as 1 and 0; any other object (an array, a plain
      object) is bound as the text of its `toString()`. What is stored is therefore
      never a boolean, an array or an object. */
  function Stored(j: Json): (r: Json)
    ensures !r.JBool? && !r.JArray? && !r.JObject?
    ensures j.JNull? || j.JNumber? || j.JString? ==> r == j
    ensures j.JBool? ==> r == JNumber(if j.b then 1.0 else 0.0)
    ensures j.JArray? || j.JObject? ==> r == JString(JsString(j))
  {
    match j
    case JBool(b) => JNumber(if b then 1.0 else 0.0)
    case JArray(_) => JString(JsString(j))
    case JObject(_) => JString(JsString(j))
    case _ => j
  }

  /** Binding a stored value again stores it unchanged. */
  lemma StoredIdempotent(j: Json)
    ensures Stored(Stored(j)) == Stored(j)
  {
  }

  /** An array is bound as its elements' texts joined with commas, a `null` element
      giving nothing; a plain object is bound as "[object Object]". */
  lemma StoredTexts(m: map<string, Json>)
    ensures Stored(JArray([JString("a")])) == JString("a")
    ensures Stored(JArray([JNumber(1.0), JNull, JArray([JBool(true), JString("x")])])) == JString("1,,true,x")
    ensures Stored(JObject(m)) == JString("[object Object]")
  {
    assert JsString(JArray([JString("a")])) == "a";
    assert NumberText(1.0) == "1";
    assert JsString(JArray([JBool(true), JString("x")])) == "true,x";
  }

  /** JavaScript's `String(v)`. */
  function JsString(j: Json): string
    decreases j, if j.JArray? then |j.items| + 1 else 0
  {
    match j
    case JNull => "null"
    case JBool(b) => if b then "true" else "false"
    case JNumber(n) => NumberText(n)
    case JString(t) => t
    case JArray(_) => ArrayText(j, 0)
    case JObject(_) => "[object Object]"
  }

  /** `Array.prototype.join(",")` from index `from` on: `null` elements give nothing, and
      the others their `String`. */
  function ArrayText(a: Json, from: nat): string
    requires a.JArray? && from <= |a.items|
    decreases a, |a.items| - from
  {
    if from == |a.items| then ""
    else
      var item := a.items[from];
      var text := if item.JNull? then "" else JsString(item);
      if from == |a.items| - 1 then text else text + "," + ArrayText(a, from + 1)
  }

  /** A number's decimal text: the sign, the whole part, and the digits of the fraction,
      at most twenty of them. */
  function NumberText(n: real): (r: string)
    ensures r != []
  {
    var a := if n < 0.0 then -n else n;
    var whole := a.Floor;
    (if n < 0.0 then "-" else "") + WholeText(whole)
      + (if a == whole as real then "" else "." + FractionText(a - whole as real, 20))
  }

  function DigitChar(d: int): char
    requires 0 <= d <= 9
  {
    "0123456789"[d]
  }

  function WholeText(k: nat): (r: string)
    ensures r != []
  {
    if k < 10 then [DigitChar(k)] else WholeText(k / 10) + [DigitChar(k % 10)]
  }

  function FractionText(f: real, digits: nat): string
    requires 0.0 <= f < 1.0
    decreases digits
  {
    if f == 0.0 || digits == 0 then ""
    else
      var d := (f * 10.0).Floor;
      [DigitChar(d)] + FractionText(f * 10.0 - d as real, digits - 1)
  }

  /** `board_id = ? [AND sequence_number > ?]`, in table order. */
  function BoardEvents(events: seq<DrawingEvent>, boardId: string, fromSequence: Option<int>): (r: seq<DrawingEvent>)
    ensures |r| <= |events|
    ensures forall e :: e in r <==> e in events && e.boardId == boardId && (fromSequence.Some? ==> e.sequence > fromSequence.value)
  {
    if events == [] then []
    else
      var rest := BoardEvents(events[1..], boardId, fromSequence);
      assert forall e :: e in events <==> e == events[0] || e in events[1..];
      var e := events[0];
      if e.boardId == boardId && (fromSequence.Some? ==> e.sequence > fromSequence.value) then [e] + rest else rest
  }

  /** `getDrawingEvents`: the selected events ordered by ascending sequence number. */
  function EventsQuery(events: seq<DrawingEvent>, boardId: string, fromSequence: Option<int>): seq<DrawingEvent> {
    SortBy(BoardEvents(events, boardId, fromSequence), SequenceOf)
  }

  /** The query returns exactly the board's events past `fromSequence` (all of them when it
      is absent), each as often as it is stored, in ascending sequence order. */
  lemma EventsQuerySpec(events: seq<DrawingEvent>, boardId: string, fromSequence: Option<int>)
    ensures var r := EventsQuery(events, boardId, fromSequence);
      && SortedBy(r, SequenceOf)
      && multiset(r) == multiset(BoardEvents(events, boardId, fromSequence))
      && (forall e :: e in r <==> e in events && e.boardId == boardId && (fromSequence.Some? ==> e.sequence > fromSequence.value))
  {
    var b := BoardEvents(events, boardId, fromSequence);
    var r := SortBy(b, SequenceOf);
    forall e ensures e in r <==> e in b {
      assert e in r <==> e in multiset(r);
      assert e in b <==> e in multiset(b);
    }
  }

  /** The full history is the replay from sequence 0 when sequence numbers are positive. */
  lemma FullHistoryIsReplayFromZero(events: seq<DrawingEvent>, boardId: string)
    requires forall k :: 0 <= k < |events| ==> events[k].sequence > 0
    ensures EventsQuery(events, boardId, None) == EventsQuery(events, boardId, Some(0))
  {
    BoardEventsAllPositive(events, boardId);
  }

  lemma {:induction false} BoardEventsAllPositive(events: seq<DrawingEvent>, boardId: string)
    requires forall k :: 0 <= k < |events| ==> events[k].sequence > 0
    ensures BoardEvents(events, boardId, None) == BoardEvents(events, boardId, Some(0))
    decreases |events|
  {
    if events != [] {
      assert events[0].sequence > 0;
      BoardEventsAllPositive(events[1..], boardId);
    }
  }

  /** `row.cursor_x && row.cursor_y ? {x, y} : undefined`: the cursor is reported only when
      both columns are non-NULL and non-zero. */
  function CursorOf(r: SessionRow): (c: Option<Point>)
    ensures c.Some? <==> r.cursorX.Some? && r.cursorX.value != 0.0 && r.cursorY.Some? && r.cursorY.value != 0.0
    ensures c.Some? ==> c.value == Point(r.cursorX.value, r.cursorY.value, None)
  {
    if r.cursorX.Some? && r.cursorX.value != 0.0 && r.cursorY.Some? && r.cursorY.value != 0.0 then
      Some(Point(r.cursorX.value, r.cursorY.value, None))
    else None
  }

  /** A cursor on either axis line (a zero coordinate) is never reported. */
  lemma ZeroCoordinateHidesCursor(r: SessionRow)
    requires (r.cursorX.Some? && r.cursorX.value == 0.0) || (r.cursorY.Some? && r.cursorY.value == 0.0)
    ensures CursorOf(r) == None
  {
  }

  function ToSession(r: SessionRow): BoardSession {
    BoardSession(r.id, r.boardId, r.socketId, r.sessionColor, r.joinedAt, r.lastSeen, CursorOf(r))
  }

  /** How `last_seen` is held against the five-minute cutoff: as instants, or as the
      texts sqlite actually compares. */
  datatype Comparison = AsTimes | AsText

  /** `last_seen` within the last five minutes of `now`, compared as times. */
  predicate IsActive(r: SessionRow, now: int) {
    r.lastSeen > now - ActiveWindow
  }

  /** `last_seen > datetime('now', '-5 minutes')` as sqlite evaluates it: the ISO text the
      store wrote into `last_seen` against sqlite's text for five minutes before `now`. */
  predicate IsActiveAsWritten(r: SessionRow, now: int) {
    SqliteText.ActiveAsWritten(SqliteText.IsoOfMillis(r.lastSeen), SqliteText.DatetimeOfMillis(now - ActiveWindow))
  }

  predicate Passes(r: SessionRow, now: int, cmp: Comparison) {
    match cmp
    case AsTimes => IsActive(r, now)
    case AsText => IsActiveAsWritten(r, now)
  }

  /** The board's rows that pass the cutoff, in table order. */
  function ActiveRows(rows: seq<SessionRow>, boardId: string, now: int, cmp: Comparison): (r: seq<SessionRow>)
    ensures |r| <= |rows|
    ensures forall x :: x in r <==> x in rows && x.boardId == boardId && Passes(x, now, cmp)
  {
    if rows == [] then []
    else
      var rest := ActiveRows(rows[1..], boardId, now, cmp);
      assert forall x :: x in rows <==> x == rows[0] || x in rows[1..];
      if rows[0].boardId == boardId && Passes(rows[0], now, cmp) then [rows[0]] + rest else rest
  }

  /** `getActiveSessions`: the rows that pass, ordered by `joined_at`, mapped to sessions.
      The store runs it with `AsText`; `AsTimes` is the five-minute window it means. */
  function ActiveSessions(rows: seq<SessionRow>, boardId: string, now: int, cmp: Comparison): seq<BoardSession> {
    ToSessions(SortBy(ActiveRows(rows, boardId, now, cmp), JoinedAtOf))
  }

  /** `rows.map(row => ({...}))`. */
  function ToSessions(rows: seq<SessionRow>): (r: seq<BoardSession>)
    ensures |r| == |rows|
    ensures forall k :: 0 <= k < |rows| ==> r[k] == ToSession(rows[k])
  {
    seq(|rows|, k requires 0 <= k < |rows| => ToSession(rows[k]))
  }

  /** The result holds exactly the sessions of that board whose rows pass the cutoff, in
      ascending order of joining, each with the cursor its row reports. With `AsTimes`
      these are the sessions seen in the last five minutes. */
  lemma ActiveSessionsSpec(rows: seq<SessionRow>, boardId: string, now: int, cmp: Comparison)
    ensures var r := ActiveSessions(rows, boardId, now, cmp);
      && (forall i, j :: 0 <= i < j < |r| ==> r[i].joinedAt <= r[j].joinedAt)
      && (forall k :: 0 <= k < |r| ==> r[k].boardId == boardId)
      && (cmp == AsTimes ==> forall k :: 0 <= k < |r| ==> r[k].lastSeen > now - ActiveWindow)
      && (forall x :: x in rows && x.boardId == boardId && Passes(x, now, cmp) ==> ToSession(x) in r)
      && (forall s :: s in r ==> exists x :: x in rows && x.boardId == boardId && Passes(x, now, cmp) && s == ToSession(x))
  {
    var active := ActiveRows(rows, boardId, now, cmp);
    SortByMembers(active, JoinedAtOf);
    SessionsOfRows(SortBy(active, JoinedAtOf), rows, boardId, now, cmp);
  }

  /** Mapping sorted passing rows to sessions keeps their order and their membership. */
  lemma SessionsOfRows(sorted: seq<SessionRow>, rows: seq<SessionRow>, boardId: string, now: int, cmp: Comparison)
    requires SortedBy(sorted, JoinedAtOf)
    requires forall x :: x in sorted <==> x in rows && x.boardId == boardId && Passes(x, now, cmp)
    ensures var r := ToSessions(sorted);
      && (forall i, j :: 0 <= i < j < |r| ==> r[i].joinedAt <= r[j].joinedAt)
      && (forall k :: 0 <= k < |r| ==> r[k].boardId == boardId)
      && (cmp == AsTimes ==> forall k :: 0 <= k < |r| ==> r[k].lastSeen > now - ActiveWindow)
      && (forall x :: x in rows && x.boardId == boardId && Passes(x, now, cmp) ==> ToSession(x) in r)
      && (forall s :: s in r ==> exists x :: x in rows && x.boardId == boardId && Passes(x, now, cmp) && s == ToSession(x))
  {
    var r := ToSessions(sorted);
    forall k | 0 <= k < |r| ensures r[k].boardId == boardId && (cmp == AsTimes ==> r[k].lastSeen > now - ActiveWindow) {
      assert sorted[k] in sorted;
    }
    forall x | x in rows && x.boardId == boardId && Passes(x, now, cmp) ensures ToSession(x) in r {
      var k :| 0 <= k < |sorted| && sorted[k] == x;
      assert r[k] == ToSession(x);
    }
    forall s | s in r ensures exists x :: x in rows && x.boardId == boardId && Passes(x, now, cmp) && s == ToSession(x) {
      var k :| 0 <= k < |r| && r[k] == s;
      assert sorted[k] in sorted;
    }
  }

  /** A row written on the same UTC day as the cutoff passes the text comparison however
      long ago it was seen. */
  lemma SameDayRowPasses(r: SessionRow, now: int)
    requires r.lastSeen / SqliteText.MillisPerDay == (now - ActiveWindow) / SqliteText.MillisPerDay
    ensures IsActiveAsWritten(r, now)
  {
    SqliteText.SameDayPassesText(r.lastSeen, now - ActiveWindow);
  }

  /** `UPDATE board_sessions SET last_seen = ? [, cursor_x = ?, cursor_y = ?] WHERE id = ?`. */
  function Touched(rows: seq<SessionRow>, sessionId: string, cursor: Option<Point>, now: int): (r: seq<SessionRow>)
    ensures |r| == |rows|
    ensures forall k :: 0 <= k < |rows| && rows[k].id != sessionId ==> r[k] == rows[k]
    ensures forall k :: 0 <= k < |rows| && rows[k].id == sessionId ==>
      && r[k].lastSeen == now
      && r[k].(lastSeen := rows[k].lastSeen, cursorX := rows[k].cursorX, cursorY := rows[k].cursorY) == rows[k]
      && (cursor.None? ==> r[k].cursorX == rows[k].cursorX && r[k].cursorY == rows[k].cursorY)
      && (cursor.Some? ==> r[k].cursorX == Some(cursor.value.x) && r[k].cursorY == Some(cursor.value.y))
  {
    seq(|rows|, k requires 0 <= k < |rows| =>
      if rows[k].id != sessionId then rows[k]
      else if cursor.Some? then rows[k].(lastSeen := now, cursorX := Some(cursor.value.x), cursorY := Some(cursor.value.y))
      else rows[k].(lastSeen := now))
  }

  /** `DELETE FROM board_sessions WHERE id = ?`. */
  function WithoutSession(rows: seq<SessionRow>, sessionId: string): (r: seq<SessionRow>)
    ensures |r| <= |rows|
    ensures forall x :: x in r <==> x in rows && x.id != sessionId
  {
    if rows == [] then []
    else
      var rest := WithoutSession(rows[1..], sessionId);
      assert forall x :: x in rows <==> x == rows[0] || x in rows[1..];
      if rows[0].id == sessionId then rest else [rows[0]] + rest
  }

  /** Deleting an id that has no row deletes nothing, and deleting twice is deleting once. */
  lemma {:induction false} WithoutSessionAbsent(rows: seq<SessionRow>, sessionId: string)
    requires forall k :: 0 <= k < |rows| ==> rows[k].id != sessionId
    ensures WithoutSession(rows, sessionId) == rows
    decreases |rows|
  {
    if rows != [] {
      WithoutSessionAbsent(rows[1..], sessionId);
    }
  }

  lemma WithoutSessionIdempotent(rows: seq<SessionRow>, sessionId: string)
    ensures WithoutSession(WithoutSession(rows, sessionId), sessionId) == WithoutSession(rows, sessionId)
  {
    var r := WithoutSession(rows, sessionId);
    forall k | 0 <= k < |r| ensures r[k].id != sessionId {
      assert r[k] in r;
    }
    WithoutSessionAbsent(r, sessionId);
  }

  /** The row after `updateBoard`: every listed column but `id` takes its stored value,
      `updated_at` is refreshed, and nothing else changes. */
  function UpdatedRow(row: map<string, Json>, updates: map<string, Json>, now: string): (r: map<string, Json>)
    ensures r.Keys == row.Keys + (updates.Keys - {"id"}) + {"updated_at"}
    ensures r["updated_at"] == JString(now)
    ensures "id" in row ==> r["id"] == row["id"]
    ensures forall k :: k in updates && k != "id" && k != "updated_at" ==> r[k] == Stored(updates[k])
    ensures forall k :: k in row && k !in updates && k != "updated_at" ==> r[k] == row[k]
  {
    var set_ := map k | k in updates.Keys - {"id"} :: Stored(updates[k]);
    (row + set_)["updated_at" := JString(now)]
  }

  /** What an update listing no column is meant to do, and does with the corrected SET
      list (`SqliteText.SetListSpec`): refresh `updated_at` and nothing else. */
  lemma UpdatedRowEmpty(row: map<string, Json>, now: string)
    ensures UpdatedRow(row, map[], now) == row["updated_at" := JString(now)]
  {
  }

  /** The in-memory database: the three tables and their statements. Each statement that
      can fail takes `ok`, whether sqlite carries it out; a failure leaves the tables as
      they were and rejects the promise. The queries are functions giving the answer
      sqlite returns when the read succeeds; callers take whether it does as a
      parameter. */
  class Database {
    var boards: map<string, map<string, Json>>
    var events: seq<DrawingEvent>
    var sessions: seq<SessionRow>

    constructor()
      ensures boards == map[] && events == [] && sessions == []
    {
      boards := map[];
      events := [];
      sessions := [];
    }

    /** `getBoardById`: the row, or `null` when no board has that id. */
    function GetBoardById(id: string): (r: Option<map<string, Json>>)
      reads this
      ensures r.Some? <==> id in boards
      ensures r.Some? ==> r.value == boards[id]
    {
      if id in boards then Some(boards[id]) else None
    }

    /** `getDrawingEvents(boardId, fromSequence)`: the board's events past the bound, in
        ascending sequence order. */
    function GetDrawingEvents(boardId: string, fromSequence: Option<int>): (r: seq<DrawingEvent>)
      reads this
      ensures SortedBy(r, SequenceOf)
      ensures forall e :: e in r <==> e in events && e.boardId == boardId && (fromSequence.Some? ==> e.sequence > fromSequence.value)
    {
      EventsQuerySpec(events, boardId, fromSequence);
      EventsQuery(events, boardId, fromSequence)
    }

    /** `getActiveSessions(boardId)` at time `now`, with the text comparison sqlite runs:
        the board's sessions whose `last_seen` text sorts after the cutoff's, in order of
        joining. */
    function GetActiveSessions(boardId: string, now: int): (r: seq<BoardSession>)
      reads this
      ensures forall i, j :: 0 <= i < j < |r| ==> r[i].joinedAt <= r[j].joinedAt
      ensures forall x :: x in sessions && x.boardId == boardId && IsActiveAsWritten(x, now) ==> ToSession(x) in r
      ensures forall s :: s in r ==> exists x :: x in sessions && x.boardId == boardId && IsActiveAsWritten(x, now) && s == ToSession(x)
    {
      ActiveSessionsSpec(sessions, boardId, now, AsText);
      ActiveSessions(sessions, boardId, now, AsText)
    }

    /** `createBoard`: inserts the row with both timestamps set to `now` and returns the
        board it was given plus the two timestamps; a taken id violates the key. */
    method CreateBoard(id: string, name: string, description: string, drawingData: string, isPublic: bool, now: string, ok: bool)
      returns (r: Result<map<string, Json>>)
      modifies this
      ensures r.Err? <==> !ok || id in old(boards)
      ensures r.Err? ==> boards == old(boards)
      ensures r.Ok? ==> boards == old(boards)[id := r.value["is_public" := JNumber(if isPublic then 1.0 else 0.0)]]
      ensures r.Ok? ==> r.value == map[
        "id" := JString(id), "name" := JString(name), "description" := JString(description),
        "drawing_data" := JString(drawingData), "created_at" := JString(now),
        "updated_at" := JString(now), "is_public" := JBool(isPublic)]
      ensures events == old(events) && sessions == old(sessions)
    {
      if !ok {
        return Err("database error");
      }
      if id in boards {
        return Err("UNIQUE constraint failed: boards.id");
      }
      var board := map[
        "id" := JString(id), "name" := JString(name), "description" := JString(description),
        "drawing_data" := JString(drawingData), "created_at" := JString(now),
        "updated_at" := JString(now), "is_public" := JBool(isPublic)];
      boards := boards[id := board["is_public" := Stored(JBool(isPublic))]];
      return Ok(board);
    }

    /** `updateBoard`: `UPDATE boards SET <column> = ?, ..., updated_at = ? WHERE id = ?`
        over every listed column except `id`. sqlite rejects the statement when no column
        is listed (the SET list then begins with a comma, `SqliteText.EmptyUpdateAsWritten`)
        and when a listed column does not exist; otherwise the row with that id, if there
        is one, becomes `UpdatedRow`. */
    method UpdateBoard(id: string, updates: map<string, Json>, now: string, ok: bool) returns (r: Result<bool>)
      modifies this
      ensures r.Err? <==> !ok || updates.Keys - {"id"} == {} || exists k :: k in updates && k !in BoardColumns
      ensures r.Err? || id !in old(boards) ==> boards == old(boards)
      ensures r.Ok? && id in old(boards) ==> boards == old(boards)[id := UpdatedRow(old(boards)[id], updates, now)]
      ensures events == old(events) && sessions == old(sessions)
    {
      if updates.Keys - {"id"} == {} {
        return Err("near \",\": syntax error");
      }
      if exists k :: k in updates && k !in BoardColumns {
        return Err("no such column");
      }
      if !ok {
        return Err("database error");
      }
      if id in boards {
        boards := boards[id := UpdatedRow(boards[id], updates, now)];
      }
      return Ok(true);
    }

    /** `saveDrawingEvent`: one new row carrying the whole event, or an error and no row. */
    method SaveDrawingEvent(e: DrawingEvent, ok: bool) returns (r: Result<bool>)
      modifies this
      ensures r.Ok? <==> ok
      ensures ok ==> events == old(events) + [e]
      ensures !ok ==> events == old(events)
      ensures boards == old(boards) && sessions == old(sessions)
    {
      if !ok {
        return Err("insert failed");
      }
      events := events + [e];
      return Ok(true);
    }

    /** `createSession`: a new row whose join and last-seen times are both `now` and whose
        cursor is unset; the returned session says the same. */
    method CreateSession(id: string, boardId: string, socketId: string, sessionColor: string, now: int, ok: bool)
      returns (r: Result<BoardSession>)
      modifies this
      ensures r.Ok? <==> ok
      ensures ok ==> r.value == BoardSession(id, boardId, socketId, sessionColor, now, now, None)
      ensures ok ==> sessions == old(sessions) + [SessionRow(id, boardId, socketId, sessionColor, now, now, None, None)]
      ensures !ok ==> sessions == old(sessions)
      ensures boards == old(boards) && events == old(events)
    {
      if !ok {
        return Err("insert failed");
      }
      sessions := sessions + [SessionRow(id, boardId, socketId, sessionColor, now, now, None, None)];
      return Ok(BoardSession(id, boardId, socketId, sessionColor, now, now, None));
    }

    /** `updateSessionActivity`: the session's rows become `Touched`, or an error and no
        change. */
    method UpdateSessionActivity(sessionId: string, cursor: Option<Point>, now: int, ok: bool) returns (r: Result<bool>)
      modifies this
      ensures r.Ok? <==> ok
      ensures ok ==> sessions == Touched(old(sessions), sessionId, cursor, now)
      ensures !ok ==> sessions == old(sessions)
      ensures boards == old(boards) && events == old(events)
    {
      if !ok {
        return Err("update failed");
      }
      sessions := Touched(sessions, sessionId, cursor, now);
      return Ok(true);
    }

    /** `removeSession`: the session's rows are deleted (none for an id with no row), or an
        error and no change. */
    method RemoveSession(sessionId: string, ok: bool) returns (r: Result<bool>)
      modifies this
      ensures r.Ok? <==> ok
      ensures ok ==> sessions == WithoutSession(old(sessions), sessionId)
      ensures !ok ==> sessions == old(sessions)
      ensures boards == old(boards) && events == old(events)
    {
      if !ok {
        return Err("delete failed");
      }
      sessions := WithoutSession(sessions, sessionId);
      return Ok(true);
    }
  }

  /** The text comparison the store actually runs lets a session seen at midnight pass the
      five-minute filter at noon of the same day, where the comparison on times rejects it:
      the board's active sessions as queried hold it, those meant hold nothing. */
  lemma StaleSessionCounterexample(day: int, r: SessionRow)
    requires r.lastSeen == day * SqliteText.MillisPerDay
    ensures var noon := r.lastSeen + 12 * 60 * 60 * 1000;
      && IsActiveAsWritten(r, noon) && !IsActive(r, noon)
      && ActiveSessions([r], r.boardId, noon, AsText) == [ToSession(r)]
      && ActiveSessions([r], r.boardId, noon, AsTimes) == []
  {
    var noon := r.lastSeen + 12 * 60 * 60 * 1000;
    assert (noon - ActiveWindow) / SqliteText.MillisPerDay == day;
    assert r.lastSeen / SqliteText.MillisPerDay == day;
    SameDayRowPasses(r, noon);
    assert ActiveRows([r], r.boardId, noon, AsText) == [r];
    assert ActiveRows([r], r.boardId, noon, AsTimes) == [];
  }
}
