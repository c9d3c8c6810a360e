/** The server's socket handler: the socket-to-session table, the per-board sequencer and
    the relay of drawing events to the other members of a board's room. Each handler runs
    to completion before the next starts; uuids, the clock, `Math.random` and whether each
    database call succeeds are parameters. */
module SocketServer {
  import opened Wrappers
  import opened Types
  import opened Sorting
  import opened BoardDatabase
  import Reconcile

  /** The colours `generateRandomColor` picks from. */
  const CollaboratorPalette: seq<string> := [
    "#FF6B6B", "#4ECDC4", "#45B7D1", "#96CEB4", "#FECA57", "#FF9FF3", "#54A0FF", "#5F27CD",
    "#00D2D3", "#FF9F43", "#10AC84", "#EE5A24", "#0984E3", "#6C5CE7", "#A29BFE"]

  /** `colors[Math.floor(Math.random() * colors.length)]` for a draw in [0, 1). */
  function RandomColor(random: real): (c: string)
    requires 0.0 <= random < 1.0
    ensures c in CollaboratorPalette
  {
    var i := (random * 15.0).Floor;
    assert 0 <= i < 15;
    CollaboratorPalette[i]
  }

  /** What the server emits, by event name. */
  datatype ServerMsg =
    | ErrorMsg(message: string)
    | SessionJoined(sessionId: string, sessionColor: string, boardId: string)
    | CollaboratorJoined(sessionId: string, sessionColor: string)
    | SyncEvents(events: seq<DrawingEvent>)
    | DrawingEventMsg(event: DrawingEvent)
    | CursorMoveMsg(sessionId: string, sessionColor: string, cursor: Point)
    | CollaboratorLeft(sessionId: string)

  /** The error texts of the `catch` blocks. */
  const JoinFailed: ServerMsg := ErrorMsg("Failed to join board")
  const ProcessFailed: ServerMsg := ErrorMsg("Failed to process drawing event")
  const SyncFailed: ServerMsg := ErrorMsg("Failed to sync events")

  /** One emitted message and the sockets it reaches. */
  datatype Delivery = Delivery(recipients: set<string>, msg: ServerMsg)

  /** The sockets in a board's room. */
  function Room(rooms: map<string, set<string>>, boardId: string): set<string> {
    if boardId in rooms then rooms[boardId] else {}
  }

  /** `socket.emit(...)`: to the sender only. */
  function ToSender(socketId: string, msg: ServerMsg): Delivery {
    Delivery({socketId}, msg)
  }

  /** `socket.to(boardId).emit(...)`: to the room, without the sender. */
  function ToOthers(rooms: map<string, set<string>>, boardId: string, socketId: string, msg: ServerMsg): (d: Delivery)
    ensures socketId !in d.recipients
    ensures forall s :: s in d.recipients <==> s in Room(rooms, boardId) && s != socketId
  {
    Delivery(Room(rooms, boardId) - {socketId}, msg)
  }

  /** `socket.join(boardId)`. */
  function Joined(rooms: map<string, set<string>>, boardId: string, socketId: string): (r: map<string, set<string>>)
    ensures Room(r, boardId) == Room(rooms, boardId) + {socketId}
    ensures forall b :: b != boardId ==> Room(r, b) == Room(rooms, b)
  {
    rooms[boardId := Room(rooms, boardId) + {socketId}]
  }

  /** A disconnecting socket leaves every room. */
  function LeftAll(rooms: map<string, set<string>>, socketId: string): (r: map<string, set<string>>)
    ensures forall b :: Room(r, b) == Room(rooms, b) - {socketId}
  {
    map b | b in rooms :: rooms[b] - {socketId}
  }

  lemma LeftAllIdempotent(rooms: map<string, set<string>>, socketId: string)
    ensures LeftAll(LeftAll(rooms, socketId), socketId) == LeftAll(rooms, socketId)
  {
    var once := LeftAll(rooms, socketId);
    var twice := LeftAll(once, socketId);
    assert twice.Keys == once.Keys;
    forall b | b in once ensures twice[b] == once[b] {
      assert once[b] == rooms[b] - {socketId};
    }
  }

  /** `getNextSequenceNumber` over the board's events: 1 when there are none, otherwise the
      largest sequence number plus one. */
  function NextSequence(events: seq<DrawingEvent>): (n: int)
    ensures events == [] ==> n == 1
    ensures forall k :: 0 <= k < |events| ==> events[k].sequence < n
    ensures events != [] ==> exists k :: 0 <= k < |events| && events[k].sequence == n - 1
  {
    if |events| > 0 then Reconcile.MaxSequence(events) + 1 else 1
  }

  /** The next sequence number of a board exceeds that of every stored event of the board. */
  lemma NextSequenceAbove(events: seq<DrawingEvent>, boardId: string)
    ensures forall i :: 0 <= i < |events| && events[i].boardId == boardId ==>
      events[i].sequence < NextSequence(EventsQuery(events, boardId, None))
  {
    EventsQuerySpec(events, boardId, None);
    var q := EventsQuery(events, boardId, None);
    forall i | 0 <= i < |events| && events[i].boardId == boardId
      ensures events[i].sequence < NextSequence(q)
    {
      assert events[i] in q;
    }
  }

  /** Every board's stored events carry positive sequence numbers that increase in the
      order the events were stored. */
  predicate SequencesIncreasing(events: seq<DrawingEvent>) {
    (forall k :: 0 <= k < |events| ==> events[k].sequence >= 1)
    && forall i, j :: 0 <= i < j < |events| && events[i].boardId == events[j].boardId ==>
      events[i].sequence < events[j].sequence
  }

  /** Storing an event numbered by `NextSequence` keeps the numbering increasing, and the
      board's next number then is one more than the stored event's. */
  lemma SaveKeepsSequencesIncreasing(events: seq<DrawingEvent>, e: DrawingEvent)
    requires SequencesIncreasing(events)
    requires e.sequence == NextSequence(EventsQuery(events, e.boardId, None))
    ensures SequencesIncreasing(events + [e])
    ensures NextSequence(EventsQuery(events + [e], e.boardId, None)) == e.sequence + 1
  {
    NextSequenceAbove(events, e.boardId);
    NextSequencePositive(events, e.boardId);
    AppendIncreasing(events, e);
    var q := EventsQuery(events + [e], e.boardId, None);
    QueryBoundedBy(events + [e], e.boardId, e.sequence);
    EventsQuerySpec(events + [e], e.boardId, None);
    assert e in q;
    var w :| 0 <= w < |q| && q[w] == e;
    NextAfterMax(q, e.sequence, w);
  }

  lemma NextSequencePositive(events: seq<DrawingEvent>, boardId: string)
    requires SequencesIncreasing(events)
    ensures NextSequence(EventsQuery(events, boardId, None)) >= 1
  {
    var q := EventsQuery(events, boardId, None);
    if q != [] {
      EventsQuerySpec(events, boardId, None);
      var n := NextSequence(q);
      var w :| 0 <= w < |q| && q[w].sequence == n - 1;
      assert q[w] in q;
      var i :| 0 <= i < |events| && events[i] == q[w];
    }
  }

  lemma AppendIncreasing(events: seq<DrawingEvent>, e: DrawingEvent)
    requires SequencesIncreasing(events) && e.sequence >= 1
    requires forall i :: 0 <= i < |events| && events[i].boardId == e.boardId ==> events[i].sequence < e.sequence
    ensures SequencesIncreasing(events + [e])
  {
    var all := events + [e];
    forall i, j | 0 <= i < j < |all| && all[i].boardId == all[j].boardId
      ensures all[i].sequence < all[j].sequence
    {
      assert all[i] == events[i];
      if j < |events| {
        assert all[j] == events[j];
      }
    }
    forall k | 0 <= k < |all| ensures all[k].sequence >= 1 {
      if k < |events| {
        assert all[k] == events[k];
      }
    }
  }

  lemma QueryBoundedBy(events: seq<DrawingEvent>, boardId: string, m: int)
    requires forall i :: 0 <= i < |events| && events[i].boardId == boardId ==> events[i].sequence <= m
    ensures forall k :: 0 <= k < |EventsQuery(events, boardId, None)| ==> EventsQuery(events, boardId, None)[k].sequence <= m
  {
    EventsQuerySpec(events, boardId, None);
    var q := EventsQuery(events, boardId, None);
    forall k | 0 <= k < |q| ensures q[k].sequence <= m {
      assert q[k] in q;
      var i :| 0 <= i < |events| && events[i] == q[k];
    }
  }

  lemma NextAfterMax(q: seq<DrawingEvent>, m: int, w: int)
    requires 0 <= w < |q| && q[w].sequence == m
    requires forall k :: 0 <= k < |q| ==> q[k].sequence <= m
    ensures NextSequence(q) == m + 1
  {
    var n := NextSequence(q);
    var v :| 0 <= v < |q| && q[v].sequence == n - 1;
    assert q[v].sequence <= m;
  }

  /** With increasing numbering, a board's events (and any replay past a sequence number)
      are in strictly increasing sequence order, so a client's resync of them does not
      depend on the order they were delivered in. */
  lemma ReplayStrictlyIncreasing(events: seq<DrawingEvent>, boardId: string, fromSequence: Option<int>)
    requires SequencesIncreasing(events)
    ensures StrictlyIncreasingBy(EventsQuery(events, boardId, fromSequence), SequenceOf)
    ensures EventsQuery(events, boardId, fromSequence) == BoardEvents(events, boardId, fromSequence)
  {
    BoardEventsIncreasing(events, boardId, fromSequence);
    SortSorted(BoardEvents(events, boardId, fromSequence), SequenceOf);
  }

  lemma TailIncreasing(events: seq<DrawingEvent>)
    requires SequencesIncreasing(events) && events != []
    ensures SequencesIncreasing(events[1..])
  {
    var tail := events[1..];
    forall i, j | 0 <= i < j < |tail| && tail[i].boardId == tail[j].boardId
      ensures tail[i].sequence < tail[j].sequence
    {
      assert tail[i] == events[i + 1] && tail[j] == events[j + 1];
    }
    forall k | 0 <= k < |tail| ensures tail[k].sequence >= 1 {
      assert tail[k] == events[k + 1];
    }
  }

  lemma HeadBelowRest(events: seq<DrawingEvent>, boardId: string, fromSequence: Option<int>)
    requires SequencesIncreasing(events) && events != [] && events[0].boardId == boardId
    ensures forall k :: 0 <= k < |BoardEvents(events[1..], boardId, fromSequence)| ==>
      events[0].sequence < BoardEvents(events[1..], boardId, fromSequence)[k].sequence
  {
    var tail := events[1..];
    var rest := BoardEvents(tail, boardId, fromSequence);
    forall k | 0 <= k < |rest| ensures events[0].sequence < rest[k].sequence {
      assert rest[k] in rest;
      var m :| 0 <= m < |tail| && tail[m] == rest[k];
      assert tail[m] == events[m + 1];
    }
  }

  lemma ConsStrict(e: DrawingEvent, rest: seq<DrawingEvent>)
    requires StrictlyIncreasingBy(rest, SequenceOf)
    requires forall k :: 0 <= k < |rest| ==> e.sequence < rest[k].sequence
    ensures StrictlyIncreasingBy([e] + rest, SequenceOf)
  {
    var r := [e] + rest;
    forall i, j | 0 <= i < j < |r| ensures r[i].sequence < r[j].sequence {
      assert r[j] == rest[j - 1];
      if i > 0 {
        assert r[i] == rest[i - 1];
      }
    }
  }

  lemma {:induction false} BoardEventsIncreasing(events: seq<DrawingEvent>, boardId: string, fromSequence: Option<int>)
    requires SequencesIncreasing(events)
    ensures StrictlyIncreasingBy(BoardEvents(events, boardId, fromSequence), SequenceOf)
    ensures SortedBy(BoardEvents(events, boardId, fromSequence), SequenceOf)
    decreases |events|
  {
    if events != [] {
      TailIncreasing(events);
      BoardEventsIncreasing(events[1..], boardId, fromSequence);
      var rest := BoardEvents(events[1..], boardId, fromSequence);
      var e := events[0];
      if e.boardId == boardId && (fromSequence.Some? ==> e.sequence > fromSequence.value) {
        HeadBelowRest(events, boardId, fromSequence);
        ConsStrict(e, rest);
        assert BoardEvents(events, boardId, fromSequence) == [e] + rest;
      } else {
        assert BoardEvents(events, boardId, fromSequence) == rest;
      }
    }
  }

  class WebSocketHandler {
    const db: Database
    /** `activeSessions`: the session each joined socket belongs to. */
    var activeSessions: map<string, BoardSession>
    /** socket.io's room membership, by board id. */
    var rooms: map<string, set<string>>
    /** Every message emitted so far, in order. */
    var outbox: seq<Delivery>

    /** Each session entry records the socket it is filed under, and stored events are
        numbered increasingly per board. (A socket whose session row could not be deleted
        keeps its entry after leaving its rooms, so room membership is no invariant.) */
    predicate Valid()
      reads this, db
    {
      (forall s :: s in activeSessions ==> activeSessions[s].socketId == s)
      && SequencesIncreasing(db.events)
    }

    constructor(database: Database)
      requires SequencesIncreasing(database.events)
      ensures db == database && activeSessions == map[] && rooms == map[] && outbox == []
      ensures Valid()
    {
      db := database;
      activeSessions := map[];
      rooms := map[];
      outbox := [];
    }

    /** `join_board`. A failed board lookup reports 'Failed to join board' and an unknown
        board 'Board not found', changing nothing else. Otherwise the socket joins the
        board's room and the rest is `EnterBoard`. `boardReadOk`, `insertOk` and `historyOk`
        are the outcomes of the three database calls. */
    method JoinBoard(socketId: string, boardId: string, sessionColor: Option<string>,
                     random: real, sessionId: string, now: int,
                     boardReadOk: bool, insertOk: bool, historyOk: bool)
      requires Valid()
      requires 0.0 <= random < 1.0
      modifies this, db
      ensures Valid()
      ensures db.events == old(db.events) && db.boards == old(db.boards)
      ensures !boardReadOk || boardId !in old(db.boards) ==>
        && rooms == old(rooms) && activeSessions == old(activeSessions)
        && db.sessions == old(db.sessions)
        && outbox == old(outbox) + [ToSender(socketId, if boardReadOk then ErrorMsg("Board not found") else JoinFailed)]
      ensures boardReadOk && boardId in old(db.boards) ==> rooms == Joined(old(rooms), boardId, socketId)
      ensures boardReadOk && boardId in old(db.boards) && !insertOk ==>
        && activeSessions == old(activeSessions) && db.sessions == old(db.sessions)
        && outbox == old(outbox) + [ToSender(socketId, JoinFailed)]
      ensures boardReadOk && boardId in old(db.boards) && insertOk ==>
        var color := if sessionColor.Some? then sessionColor.value else RandomColor(random);
        && activeSessions == old(activeSessions)[socketId := BoardSession(sessionId, boardId, socketId, color, now, now, None)]
        && db.sessions == old(db.sessions) + [SessionRow(sessionId, boardId, socketId, color, now, now, None, None)]
        && outbox == old(outbox) + [
             ToSender(socketId, SessionJoined(sessionId, color, boardId)),
             ToOthers(rooms, boardId, socketId, CollaboratorJoined(sessionId, color)),
             ToSender(socketId, if historyOk then SyncEvents(EventsQuery(old(db.events), boardId, None)) else JoinFailed)]
    {
      var color := if sessionColor.Some? then sessionColor.value else RandomColor(random);
      if !boardReadOk {
        outbox := outbox + [ToSender(socketId, JoinFailed)];
        return;
      }
      if db.GetBoardById(boardId).None? {
        outbox := outbox + [ToSender(socketId, ErrorMsg("Board not found"))];
        return;
      }
      EnterBoard(socketId, boardId, color, sessionId, now, insertOk, historyOk);
    }

    /** `join_board` for a board that exists: the socket joins the room, then the session
        is stored, confirmed, announced to the room and sent the board's history. A failed
        insert leaves the socket in the room without a session; a failed history read comes
        after the session was stored and announced, and sends 'Failed to join board' in
        place of the history. */
    method EnterBoard(socketId: string, boardId: string, color: string, sessionId: string, now: int,
                      insertOk: bool, historyOk: bool)
      requires Valid()
      modifies this, db
      ensures Valid()
      ensures rooms == Joined(old(rooms), boardId, socketId)
      ensures !insertOk ==>
        && activeSessions == old(activeSessions) && db.sessions == old(db.sessions)
        && outbox == old(outbox) + [ToSender(socketId, JoinFailed)]
      ensures insertOk ==>
        && activeSessions == old(activeSessions)[socketId := BoardSession(sessionId, boardId, socketId, color, now, now, None)]
        && db.sessions == old(db.sessions) + [SessionRow(sessionId, boardId, socketId, color, now, now, None, None)]
        && outbox == old(outbox) + [
             ToSender(socketId, SessionJoined(sessionId, color, boardId)),
             ToOthers(rooms, boardId, socketId, CollaboratorJoined(sessionId, color)),
             ToSender(socketId, if historyOk then SyncEvents(EventsQuery(old(db.events), boardId, None)) else JoinFailed)]
      ensures db.events == old(db.events) && db.boards == old(db.boards)
    {
      rooms := Joined(rooms, boardId, socketId);
      var created := db.CreateSession(sessionId, boardId, socketId, color, now, insertOk);
      if created.Err? {
        outbox := outbox + [ToSender(socketId, JoinFailed)];
        return;
      }
      activeSessions := activeSessions[socketId := created.value];
      outbox := outbox + [ToSender(socketId, SessionJoined(sessionId, color, boardId))];
      outbox := outbox + [ToOthers(rooms, boardId, socketId, CollaboratorJoined(sessionId, color))];
      if !historyOk {
        outbox := outbox + [ToSender(socketId, JoinFailed)];
        return;
      }
      var history := db.GetDrawingEvents(boardId, None);
      outbox := outbox + [ToSender(socketId, SyncEvents(history))];
    }

    /** `drawing_event`. A socket without a session gets 'No active session' and nothing is
        stored or relayed. Otherwise the event is built from the session (board, session
        id) and the server (id, time, next sequence number), with only its type and data
        from the client, and `SaveAndRelay` stores and relays it. */
    method DrawingEvent(socketId: string, data: EventData, eventId: string, now: int,
                        readOk: bool, saveOk: bool, touchOk: bool)
      returns (saved: Option<DrawingEvent>)
      requires Valid()
      modifies this`outbox, db
      ensures Valid()
      ensures db.boards == old(db.boards)
      ensures socketId !in activeSessions ==>
        && saved.None? && db.events == old(db.events) && db.sessions == old(db.sessions)
        && outbox == old(outbox) + [ToSender(socketId, ErrorMsg("No active session"))]
      ensures socketId in activeSessions ==>
        var session := activeSessions[socketId];
        var e := Types.DrawingEvent(eventId, session.boardId, session.id, data, now,
                                    NextSequence(EventsQuery(old(db.events), session.boardId, None)));
        && (!readOk || !saveOk ==>
             && saved.None? && db.events == old(db.events) && db.sessions == old(db.sessions)
             && outbox == old(outbox) + [ToSender(socketId, ProcessFailed)])
        && (readOk && saveOk ==>
             && saved == Some(e)
             && db.events == old(db.events) + [e]
             && db.sessions == (if touchOk then Touched(old(db.sessions), session.id, None, now) else old(db.sessions))
             && outbox == old(outbox) + [ToOthers(rooms, session.boardId, socketId, DrawingEventMsg(e))]
                          + (if touchOk then [] else [ToSender(socketId, ProcessFailed)]))
    {
      if socketId !in activeSessions {
        outbox := outbox + [ToSender(socketId, ErrorMsg("No active session"))];
        return None;
      }
      saved := SaveAndRelay(socketId, activeSessions[socketId], data, eventId, now, readOk, saveOk, touchOk);
    }

    /** `drawing_event` for a socket with a session: number the event from the board's
        stored events, store it, relay it to the rest of the room, then refresh the
        session's activity. A failed read or insert reports 'Failed to process drawing
        event' and stores and relays nothing; a failed activity update reports the same
        text for an event already stored and relayed. */
    method SaveAndRelay(socketId: string, session: BoardSession, data: EventData, eventId: string, now: int,
                        readOk: bool, saveOk: bool, touchOk: bool)
      returns (saved: Option<DrawingEvent>)
      requires Valid()
      modifies this`outbox, db
      ensures Valid()
      ensures db.boards == old(db.boards)
      ensures var e := Types.DrawingEvent(eventId, session.boardId, session.id, data, now,
                                          NextSequence(EventsQuery(old(db.events), session.boardId, None)));
        && (!readOk || !saveOk ==>
             && saved.None? && db.events == old(db.events) && db.sessions == old(db.sessions)
             && outbox == old(outbox) + [ToSender(socketId, ProcessFailed)])
        && (readOk && saveOk ==>
             && saved == Some(e)
             && db.events == old(db.events) + [e]
             && db.sessions == (if touchOk then Touched(old(db.sessions), session.id, None, now) else old(db.sessions))
             && outbox == old(outbox) + [ToOthers(rooms, session.boardId, socketId, DrawingEventMsg(e))]
                          + (if touchOk then [] else [ToSender(socketId, ProcessFailed)]))
    {
      if !readOk {
        outbox := outbox + [ToSender(socketId, ProcessFailed)];
        return None;
      }
      var sequence := NextSequence(db.GetDrawingEvents(session.boardId, None));
      var e := Types.DrawingEvent(eventId, session.boardId, session.id, data, now, sequence);
      SaveKeepsSequencesIncreasing(db.events, e);
      var r := db.SaveDrawingEvent(e, saveOk);
      if r.Err? {
        outbox := outbox + [ToSender(socketId, ProcessFailed)];
        return None;
      }
      outbox := outbox + [ToOthers(rooms, session.boardId, socketId, DrawingEventMsg(e))];
      var touched := db.UpdateSessionActivity(session.id, None, now, touchOk);
      if touched.Err? {
        outbox := outbox + [ToSender(socketId, ProcessFailed)];
      }
      return Some(e);
    }

    /** `cursor_move`. Silently ignored without a session; otherwise the session's last-seen
        time and cursor are stored and the cursor is relayed to the rest of the room with
        the session's id and colour. A failed update is only logged: nothing is relayed. */
    method CursorMove(socketId: string, x: real, y: real, now: int, touchOk: bool)
      requires Valid()
      modifies this`outbox, db
      ensures Valid()
      ensures db.events == old(db.events) && db.boards == old(db.boards)
      ensures socketId !in activeSessions || !touchOk ==> db.sessions == old(db.sessions) && outbox == old(outbox)
      ensures socketId in activeSessions && touchOk ==>
        var session := activeSessions[socketId];
        && db.sessions == Touched(old(db.sessions), session.id, Some(Point(x, y, None)), now)
        && outbox == old(outbox) + [ToOthers(rooms, session.boardId, socketId,
                                             CursorMoveMsg(session.id, session.sessionColor, Point(x, y, None)))]
    {
      if socketId !in activeSessions {
        return;
      }
      var session := activeSessions[socketId];
      var cursor := Point(x, y, None);
      var touched := db.UpdateSessionActivity(session.id, Some(cursor), now, touchOk);
      if touched.Err? {
        return;
      }
      outbox := outbox + [ToOthers(rooms, session.boardId, socketId, CursorMoveMsg(session.id, session.sessionColor, cursor))];
    }

    /** `sync_request`: the board's events past `fromSequence` (all when absent), to the
        requester, whether or not it has a session; a failed read sends 'Failed to sync
        events' instead. */
    method SyncRequest(socketId: string, boardId: string, fromSequence: Option<int>, readOk: bool)
      requires Valid()
      modifies this`outbox
      ensures Valid()
      ensures outbox == old(outbox) + [ToSender(socketId, if readOk then SyncEvents(EventsQuery(db.events, boardId, fromSequence)) else SyncFailed)]
    {
      if !readOk {
        outbox := outbox + [ToSender(socketId, SyncFailed)];
        return;
      }
      var events := db.GetDrawingEvents(boardId, fromSequence);
      outbox := outbox + [ToSender(socketId, SyncEvents(events))];
    }

    /** `disconnect`. The socket has left every room; when it has a session, the session row
        is deleted, the rest of the room receives `collaborator_left`, and the socket's entry
        is removed. Without a session (for instance on a second disconnect) nothing else
        happens. A failed delete is only logged: the row and the entry stay, and no one is
        told. */
    method Disconnect(socketId: string, removeOk: bool)
      requires Valid()
      modifies this, db
      ensures Valid()
      ensures rooms == LeftAll(old(rooms), socketId)
      ensures db.events == old(db.events) && db.boards == old(db.boards)
      ensures socketId !in old(activeSessions) || !removeOk ==>
        activeSessions == old(activeSessions) && db.sessions == old(db.sessions) && outbox == old(outbox)
      ensures socketId in old(activeSessions) && removeOk ==>
        var session := old(activeSessions)[socketId];
        && activeSessions == old(activeSessions) - {socketId}
        && db.sessions == WithoutSession(old(db.sessions), session.id)
        && outbox == old(outbox) + [ToOthers(rooms, session.boardId, socketId, CollaboratorLeft(session.id))]
    {
      rooms := LeftAll(rooms, socketId);
      if socketId in activeSessions {
        var session := activeSessions[socketId];
        var removed := db.RemoveSession(session.id, removeOk);
        if removed.Err? {
          return;
        }
        outbox := outbox + [ToOthers(rooms, session.boardId, socketId, CollaboratorLeft(session.id))];
        activeSessions := activeSessions - {socketId};
      }
    }
  }
}
