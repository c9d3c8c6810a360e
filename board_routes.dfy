/** The `/api/boards` REST routes: each looks the board up first and answers 404 when it is
    missing, then reads the request, calls the database and shapes the response. The new
    board's uuid and the clock are parameters. */
module BoardRoutes {
  import opened Wrappers
  import opened Types
  import opened Json
  import Text
  import opened BoardDatabase

  /** A response body: a board row, a list of events or sessions, or an error. */
  datatype Body =
    | BoardBody(board: map<string, Json>)
    | EventsBody(events: seq<DrawingEvent>)
    | SessionsBody(sessions: seq<BoardSession>)
    | ErrorBody(error: string)

  datatype Response = Response(status: int, body: Body)

  const NotFound: Response := Response(404, ErrorBody("Board not found"))
  const NameRequired: Response := Response(400, ErrorBody("Board name is required"))
  const CreateFailed: Response := Response(500, ErrorBody("Failed to create board"))
  const FetchFailed: Response := Response(500, ErrorBody("Failed to fetch board"))
  const UpdateFailed: Response := Response(500, ErrorBody("Failed to update board"))
  const DeleteFailed: Response := Response(500, ErrorBody("Failed to delete board"))
  const EventsFailed: Response := Response(500, ErrorBody("Failed to fetch drawing events"))
  const SessionsFailed: Response := Response(500, ErrorBody("Failed to fetch board sessions"))

  /** The columns a `PUT` may change, in the order the route looks for them. */
  const AllowedFields: seq<string> := ["name", "description", "drawing_data", "is_public"]

  // ---------------------------------------------------------------------------------------
  // Reading a new board from the request body

  /** The board name of a `POST`: present, truthy and a string, then trimmed; `None` is the
      400 answer. */
  function RequiredName(body: map<string, Json>): (r: Option<string>)
    ensures r.None? <==> !("name" in body && Truthy(body["name"]) && body["name"].JString?)
    ensures r.Some? ==> r.value == Text.Trim(body["name"].s)
  {
    if "name" in body then
      match body["name"]
      case JString(s) => if s == "" then None else Some(Text.Trim(s))
      case _ => None
    else None
  }

  /** `description?.trim() || ''`: missing or `null` gives the empty text, a string is
      trimmed, and any other value has no `trim` method, so the route throws (`None`). */
  function DescriptionOf(d: Option<Json>): (r: Option<string>)
    ensures d.None? || d == Some(JNull) ==> r == Some("")
    ensures d.Some? && d.value.JString? ==> r == Some(Text.Trim(d.value.s))
    ensures r.None? <==> d.Some? && !d.value.JNull? && !d.value.JString?
  {
    match d
    case None => Some("")
    case Some(JNull) => Some("")
    case Some(JString(s)) =>
      var t := Text.Trim(s);
      if t != "" then Some(t) else Some("")
    case Some(_) => None
  }

  /** `Boolean(is_public)` with `is_public` defaulting to true when it is missing. */
  function IsPublicOf(v: Option<Json>): (r: bool)
    ensures v.None? ==> r
    ensures v.Some? ==> (r <==> Truthy(v.value))
  {
    v.None? || Truthy(v.value)
  }

  /** The text fields of a created board carry no white space at either end, and a board is
      public unless the request says otherwise: only a missing `is_public` defaults to true,
      so an explicit `null`, `false`, `0` or `""` makes the board private. */
  lemma NewBoardFields(body: map<string, Json>)
    ensures var n := RequiredName(body);
      n.Some? ==> |n.value| == 0 || (!Text.IsJsSpace(n.value[0]) && !Text.IsJsSpace(n.value[|n.value| - 1]))
    ensures var d := DescriptionOf(if "description" in body then Some(body["description"]) else None);
      d.Some? ==> |d.value| == 0 || (!Text.IsJsSpace(d.value[0]) && !Text.IsJsSpace(d.value[|d.value| - 1]))
    ensures "is_public" !in body ==> IsPublicOf(None)
    ensures !IsPublicOf(Some(JNull)) && !IsPublicOf(Some(JBool(false)))
    ensures !IsPublicOf(Some(JNumber(0.0))) && !IsPublicOf(Some(JString("")))
  {
  }

  /** A name made only of white space passes the check and yields a board with an empty
      name. */
  lemma BlankNameAccepted()
    ensures RequiredName(map["name" := JString(" ")]) == Some("")
  {
    var s := " ";
    assert Text.IsJsSpace(s[0]);
    assert Text.TrimStart(s) == "";
  }

  // ---------------------------------------------------------------------------------------
  // `parseInt(text, 10)`

  predicate IsDigit(c: char) {
    '0' <= c <= '9'
  }

  predicate AllDigits(d: string) {
    forall k :: 0 <= k < |d| ==> IsDigit(d[k])
  }

  /** The longest run of decimal digits at the start of `s`. */
  function LeadingDigits(s: string): (r: string)
    ensures r <= s && AllDigits(r)
    ensures |r| < |s| ==> !IsDigit(s[|r|])
  {
    if |s| > 0 && IsDigit(s[0]) then [s[0]] + LeadingDigits(s[1..]) else []
  }

  /** The value of a run of decimal digits, most significant first. */
  function DecimalValue(d: string): nat
    requires AllDigits(d)
  {
    if d == [] then 0 else DecimalValue(d[..|d| - 1]) * 10 + (d[|d| - 1] as int - '0' as int)
  }

  /** `parseInt(s, 10)`: leading white space is skipped, one `+` or `-` is read, then the
      leading digits; with no digit the result is `NaN` (`None`), and whatever follows the
      digits is ignored. */
  function ParseInt(s: string): (r: Option<int>)
    ensures Text.TrimStart(s) == [] ==> r.None?
    ensures r.Some? && r.value < 0 ==> Text.TrimStart(s)[0] == '-'
  {
    ParseSigned(Text.TrimStart(s))
  }

  /** `parseInt` on text that no longer starts with white space: an optional sign, then
      the digits. */
  function ParseSigned(t: string): (r: Option<int>)
    ensures t == [] ==> r.None?
    ensures r.Some? && r.value < 0 ==> t[0] == '-'
  {
    if |t| > 0 && t[0] == '-' then
      match ParseDigits(t[1..])
      case None => None
      case Some(v) => Some(-v)
    else if |t| > 0 && t[0] == '+' then ParseDigits(t[1..])
    else ParseDigits(t)
  }

  /** The value of the leading digits, or `NaN` when there is none. */
  function ParseDigits(u: string): (r: Option<int>)
    ensures r.Some? ==> r.value >= 0 && |u| > 0 && IsDigit(u[0])
  {
    var digits := LeadingDigits(u);
    if digits == [] then None else Some(DecimalValue(digits))
  }

  /** Text that starts with a character other than white space is not trimmed. */
  lemma TrimStartKeeps(s: string)
    requires |s| > 0 && !Text.IsJsSpace(s[0])
    ensures Text.TrimStart(s) == s
  {
  }

  /** The decimal text of `n`, without leading zeros. */
  function Decimal(n: nat): (r: string)
    ensures |r| > 0 && AllDigits(r) && DecimalValue(r) == n
    ensures r[0] == '0' ==> n == 0
  {
    var last := [('0' as int + n % 10) as char];
    if n < 10 then last
    else
      var r := Decimal(n / 10) + last;
      assert r[..|r| - 1] == Decimal(n / 10);
      r
  }

  /** The decimal text of a whole number, with `-` before a negative one. */
  function SignedDecimal(n: int): string {
    if n < 0 then "-" + Decimal(-n) else Decimal(n)
  }

  /** Reading a number's decimal text gives the number back, whatever text follows it as
      long as that text does not begin with a digit. */
  lemma ParseIntOfDecimal(n: int, rest: string)
    requires rest == [] || !IsDigit(rest[0])
    ensures ParseInt(SignedDecimal(n) + rest) == Some(n)
  {
    if n < 0 {
      NegativeOfDecimal(n, rest);
    } else {
      NaturalOfDecimal(n, rest);
    }
  }

  lemma NegativeOfDecimal(n: int, rest: string)
    requires n < 0 && (rest == [] || !IsDigit(rest[0]))
    ensures ParseInt(SignedDecimal(n) + rest) == Some(n)
  {
    var d := Decimal(-n);
    ParseDigitsOf(d, rest);
    assert SignedDecimal(n) + rest == ['-'] + (d + rest);
    MinusSign(d + rest, -n);
  }

  lemma NaturalOfDecimal(n: nat, rest: string)
    requires rest == [] || !IsDigit(rest[0])
    ensures ParseInt(SignedDecimal(n) + rest) == Some(n)
  {
    var d := Decimal(n);
    ParseDigitsOf(d, rest);
    assert SignedDecimal(n) + rest == d + rest;
    assert IsDigit((d + rest)[0]);
    DigitNotSpace((d + rest)[0]);
    TrimStartKeeps(d + rest);
    UnsignedDigits(d + rest);
  }

  /** Text that starts with a digit reads as its leading digits. */
  lemma UnsignedDigits(u: string)
    requires |u| > 0 && IsDigit(u[0])
    ensures ParseSigned(u) == ParseDigits(u)
  {
  }

  /** A `-` before text whose leading digits read as `v` reads as `-v`. */
  lemma MinusSign(u: string, v: int)
    requires ParseDigits(u) == Some(v)
    ensures ParseInt(['-'] + u) == Some(-v)
  {
    var s := ['-'] + u;
    MinusNotSpace();
    TrimStartKeeps(s);
    assert s[1..] == u;
    NegativeSign(s);
  }

  lemma ParseDigitsOf(d: string, rest: string)
    requires |d| > 0 && AllDigits(d)
    requires rest == [] || !IsDigit(rest[0])
    ensures ParseDigits(d + rest) == Some(DecimalValue(d) as int)
  {
    LeadingDigitsOf(d, rest);
  }

  lemma NegativeSign(t: string)
    requires |t| > 0 && t[0] == '-' && ParseDigits(t[1..]).Some?
    ensures ParseSigned(t) == Some(-ParseDigits(t[1..]).value)
  {
  }

  lemma MinusNotSpace()
    ensures !Text.IsJsSpace('-')
  {
  }

  lemma DigitNotSpace(c: char)
    requires IsDigit(c)
    ensures !Text.IsJsSpace(c)
  {
  }

  lemma {:induction false} LeadingDigitsOf(d: string, rest: string)
    requires AllDigits(d)
    requires rest == [] || !IsDigit(rest[0])
    ensures LeadingDigits(d + rest) == d
  {
    if d != [] {
      assert (d + rest)[1..] == d[1..] + rest;
      LeadingDigitsOf(d[1..], rest);
    } else {
      assert d + rest == rest;
    }
  }

  /** Leading white space does not change what `parseInt` reads. */
  lemma ParseIntSkipsSpace(c: char, s: string)
    requires Text.IsJsSpace(c)
    ensures ParseInt([c] + s) == ParseInt(s)
  {
    assert ([c] + s)[1..] == s;
    assert Text.TrimStart([c] + s) == Text.TrimStart(s);
  }

  /** Text that starts with a character other than a digit, a sign or white space reads as
      `NaN`. */
  lemma ParseIntRejects(s: string)
    requires |s| > 0 && !IsDigit(s[0]) && s[0] != '-' && s[0] != '+' && !Text.IsJsSpace(s[0])
    ensures ParseInt(s).None?
  {
  }

  // ---------------------------------------------------------------------------------------
  // The `fromSequence` query parameter

  /** What the events route passes to the query: no bound, a parsed bound, or `NaN`. */
  datatype SequenceBound = NoBound | After(n: int) | NotANumber

  /** `fromSequence ? parseInt(String(fromSequence), 10) : undefined`. */
  function BoundOf(fromSequence: Option<string>): (r: SequenceBound)
    ensures fromSequence.None? || fromSequence == Some("") ==> r == NoBound
    ensures r.After? ==> fromSequence.Some? && ParseInt(fromSequence.value) == Some(r.n)
    ensures r.NotANumber? <==> fromSequence.Some? && fromSequence.value != "" && ParseInt(fromSequence.value).None?
  {
    if fromSequence.None? || fromSequence.value == "" then NoBound
    else match ParseInt(fromSequence.value)
      case None => NotANumber
      case Some(n) => After(n)
  }

  /** The events the route answers with: the board's events past the bound. sqlite binds
      `NaN` as NULL, and `sequence_number > NULL` holds for no row. */
  function EventsAfter(db: Database, boardId: string, bound: SequenceBound): (r: seq<DrawingEvent>)
    reads db
    ensures bound.NoBound? ==> r == db.GetDrawingEvents(boardId, None)
    ensures bound.After? ==> r == db.GetDrawingEvents(boardId, Some(bound.n))
    ensures bound.NotANumber? ==> r == []
  {
    match bound
    case NoBound => db.GetDrawingEvents(boardId, None)
    case After(n) => db.GetDrawingEvents(boardId, Some(n))
    case NotANumber => []
  }

  /** A `fromSequence` that is a number's decimal text, possibly followed by text that does
      not begin with a digit (`?fromSequence=12abc` reads as 12), bounds the events at that
      number. */
  lemma FromSequenceDecimal(n: int, rest: string)
    requires rest == [] || !IsDigit(rest[0])
    ensures BoundOf(Some(SignedDecimal(n) + rest)) == After(n)
  {
    var t := SignedDecimal(n) + rest;
    ParseIntOfDecimal(n, rest);
    BoundOfParsed(t);
  }

  /** A bound of 0 (`?fromSequence=0`) returns the whole history, as no parameter does,
      when sequence numbers are positive. */
  lemma ZeroBoundIsFullHistory(db: Database, boardId: string)
    requires forall k :: 0 <= k < |db.events| ==> db.events[k].sequence > 0
    ensures EventsAfter(db, boardId, After(0)) == EventsAfter(db, boardId, NoBound)
  {
    FullHistoryIsReplayFromZero(db.events, boardId);
  }

  lemma BoundOfParsed(t: string)
    requires t != "" && ParseInt(t).Some?
    ensures BoundOf(Some(t)) == After(ParseInt(t).value)
  {
  }

  // ---------------------------------------------------------------------------------------
  // The `PUT` filter

  /** The part of an update body the route forwards: the allowed fields it holds. */
  function AllowedPart(updates: map<string, Json>): (r: map<string, Json>)
    ensures r.Keys <= updates.Keys && r.Keys <= BoardColumns - {"id", "created_at", "updated_at"}
    ensures forall k :: k in r ==> r[k] == updates[k]
  {
    map k | k in updates.Keys && k in AllowedFields :: updates[k]
  }

  /** The loop of the `PUT` route: each allowed field present in the body is copied. */
  method FilterUpdates(updates: map<string, Json>) returns (filtered: map<string, Json>)
    ensures filtered == AllowedPart(updates)
    ensures forall k :: k in filtered <==> k in updates && k in AllowedFields
  {
    filtered := map[];
    var i := 0;
    while i < |AllowedFields|
      invariant 0 <= i <= |AllowedFields|
      invariant forall k :: k in filtered <==> k in updates && k in AllowedFields[..i]
      invariant forall k :: k in filtered ==> filtered[k] == updates[k]
    {
      var field := AllowedFields[i];
      if field in updates {
        filtered := filtered[field := updates[field]];
      }
      assert AllowedFields[..i + 1] == AllowedFields[..i] + [field];
      i := i + 1;
    }
    assert AllowedFields[..i] == AllowedFields;
  }

  /** A `PUT` changes only the four allowed columns and `updated_at`: the id, the creation
      time and every other column keep their values. */
  lemma PutKeepsOtherColumns(row: map<string, Json>, body: map<string, Json>, now: string)
    ensures var r := UpdatedRow(row, AllowedPart(body), now);
      && (forall k :: k in row && k !in AllowedFields && k != "updated_at" ==> k in r && r[k] == row[k])
      && (forall k :: k in r ==> k in row || k in AllowedFields || k == "updated_at")
  {
  }

  /** A body holding none of the four fields, such as `{}` or `{"id": ...}`, is forwarded as
      an empty update. */
  lemma PutCanForwardNothing(body: map<string, Json>)
    ensures AllowedPart(body) == map[] <==> forall k :: k in AllowedFields ==> k !in body
  {
    if AllowedPart(body) != map[] {
      var k :| k in AllowedPart(body);
      assert k in AllowedFields && k in body;
    }
  }

  // ---------------------------------------------------------------------------------------
  // The routes

  /** `POST /`: 400 and no board without a usable name; 500 and no board when the
      description cannot be trimmed, the id is taken or the insert fails; otherwise 201
      with the new board. */
  method PostBoard(db: Database, body: map<string, Json>, id: string, now: string, insertOk: bool) returns (resp: Response)
    modifies db
    ensures db.events == old(db.events) && db.sessions == old(db.sessions)
    ensures RequiredName(body).None? ==> resp == NameRequired && db.boards == old(db.boards)
    ensures var description := DescriptionOf(if "description" in body then Some(body["description"]) else None);
      RequiredName(body).Some? && (description.None? || id in old(db.boards) || !insertOk) ==>
        resp == CreateFailed && db.boards == old(db.boards)
    ensures var description := DescriptionOf(if "description" in body then Some(body["description"]) else None);
      var isPublic := IsPublicOf(if "is_public" in body then Some(body["is_public"]) else None);
      RequiredName(body).Some? && description.Some? && id !in old(db.boards) && insertOk ==>
        var board := map[
          "id" := JString(id), "name" := JString(RequiredName(body).value),
          "description" := JString(description.value), "drawing_data" := JString("[]"),
          "created_at" := JString(now), "updated_at" := JString(now), "is_public" := JBool(isPublic)];
        && resp == Response(201, BoardBody(board))
        && db.boards == old(db.boards)[id := board["is_public" := Stored(JBool(isPublic))]]
  {
    var name := RequiredName(body);
    if name.None? {
      return NameRequired;
    }
    var description := DescriptionOf(if "description" in body then Some(body["description"]) else None);
    if description.None? {
      return CreateFailed;
    }
    var isPublic := IsPublicOf(if "is_public" in body then Some(body["is_public"]) else None);
    var r := db.CreateBoard(id, name.value, description.value, "[]", isPublic, now, insertOk);
    if r.Err? {
      return CreateFailed;
    }
    return Response(201, BoardBody(r.value));
  }

  /** `GET /:id`: the board, 404, or 500 when the read fails. */
  method GetBoard(db: Database, id: string, readOk: bool) returns (resp: Response)
    ensures !readOk ==> resp == FetchFailed
    ensures readOk && id !in db.boards ==> resp == NotFound
    ensures readOk && id in db.boards ==> resp == Response(200, BoardBody(db.boards[id]))
  {
    if !readOk {
      return FetchFailed;
    }
    var board := db.GetBoardById(id);
    if board.None? {
      return NotFound;
    }
    return Response(200, BoardBody(board.value));
  }

  /** `PUT /:id`: 404 and no change for an unknown board. Otherwise the allowed fields of
      the body are forwarded to `updateBoard`; when none is present the statement it builds
      is rejected and the answer is 500 with nothing changed. A stored update gives the
      row read back, or 500 when that second read fails. `readOk`, `writeOk` and
      `rereadOk` are the outcomes of the three database calls. */
  method PutBoard(db: Database, id: string, body: map<string, Json>, now: string,
                  readOk: bool, writeOk: bool, rereadOk: bool) returns (resp: Response)
    modifies db
    ensures db.events == old(db.events) && db.sessions == old(db.sessions)
    ensures !readOk ==> resp == UpdateFailed && db.boards == old(db.boards)
    ensures readOk && id !in old(db.boards) ==> resp == NotFound && db.boards == old(db.boards)
    ensures readOk && id in old(db.boards) && (AllowedPart(body) == map[] || !writeOk) ==>
      resp == UpdateFailed && db.boards == old(db.boards)
    ensures readOk && id in old(db.boards) && AllowedPart(body) != map[] && writeOk ==>
      && db.boards == old(db.boards)[id := UpdatedRow(old(db.boards)[id], AllowedPart(body), now)]
      && resp == (if rereadOk then Response(200, BoardBody(db.boards[id])) else UpdateFailed)
  {
    if !readOk {
      return UpdateFailed;
    }
    var existing := db.GetBoardById(id);
    if existing.None? {
      return NotFound;
    }
    var filtered := FilterUpdates(body);
    var r := db.UpdateBoard(id, filtered, now, writeOk);
    if r.Err? {
      return UpdateFailed;
    }
    if !rereadOk {
      return UpdateFailed;
    }
    var updated := db.GetBoardById(id);
    return Response(200, BoardBody(updated.value));
  }

  /** `DELETE /:id`: 404 for an unknown board; for a known one the database has no delete
      operation, the call throws and the answer is 500, with the board kept. A failed read
      answers 500 as well. */
  method DeleteBoard(db: Database, id: string, readOk: bool) returns (resp: Response)
    ensures readOk && id !in db.boards ==> resp == NotFound
    ensures !readOk || id in db.boards ==> resp == DeleteFailed
  {
    if !readOk {
      return DeleteFailed;
    }
    var existing := db.GetBoardById(id);
    if existing.None? {
      return NotFound;
    }
    return DeleteFailed;
  }

  /** `GET /:id/events`: 404, the board's events past the parsed `fromSequence`, or 500
      when either read fails. */
  method GetEvents(db: Database, id: string, fromSequence: Option<string>, boardReadOk: bool, eventsReadOk: bool)
    returns (resp: Response)
    ensures !boardReadOk ==> resp == EventsFailed
    ensures boardReadOk && id !in db.boards ==> resp == NotFound
    ensures boardReadOk && id in db.boards && !eventsReadOk ==> resp == EventsFailed
    ensures boardReadOk && id in db.boards && eventsReadOk ==>
      resp == Response(200, EventsBody(EventsAfter(db, id, BoundOf(fromSequence))))
    ensures boardReadOk && id in db.boards && eventsReadOk && fromSequence.None? ==>
      resp == Response(200, EventsBody(EventsQuery(db.events, id, None)))
  {
    if !boardReadOk {
      return EventsFailed;
    }
    var board := db.GetBoardById(id);
    if board.None? {
      return NotFound;
    }
    if !eventsReadOk {
      return EventsFailed;
    }
    var bound := BoundOf(fromSequence);
    var events := EventsAfter(db, id, bound);
    return Response(200, EventsBody(events));
  }

  /** `GET /:id/sessions`: 404, the sessions `getActiveSessions` returns at `now` (with
      sqlite's text comparison of `last_seen`), or 500 when either read fails. */
  method GetSessions(db: Database, id: string, now: int, boardReadOk: bool, sessionsReadOk: bool)
    returns (resp: Response)
    ensures !boardReadOk ==> resp == SessionsFailed
    ensures boardReadOk && id !in db.boards ==> resp == NotFound
    ensures boardReadOk && id in db.boards && !sessionsReadOk ==> resp == SessionsFailed
    ensures boardReadOk && id in db.boards && sessionsReadOk ==>
      resp == Response(200, SessionsBody(ActiveSessions(db.sessions, id, now, AsText)))
  {
    if !boardReadOk {
      return SessionsFailed;
    }
    var board := db.GetBoardById(id);
    if board.None? {
      return NotFound;
    }
    if !sessionsReadOk {
      return SessionsFailed;
    }
    return Response(200, SessionsBody(db.GetActiveSessions(id, now)));
  }
}
