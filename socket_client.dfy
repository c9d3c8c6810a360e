/** The client's connection to the collaboration server: whether it is connected or
    connecting, the last error, the board join waiting for a connection, and what has been
    emitted on the socket. The socket library's own events (connected, dropped, failed, a
    server error) are methods called in their place; whether creating a socket throws is a
    parameter. */
module SocketClient {
  import opened Wrappers
  import opened Json

  /** The join waiting for the connection. */
  datatype PendingJoin = PendingJoin(boardId: string, sessionColor: Option<string>)

  /** A message emitted on the socket. */
  datatype Emit =
    | JoinBoardEmit(boardId: string, sessionColor: Option<string>)
    | MessageEmit(kind: string, payload: Json)
    | CursorMoveEmit(x: real, y: real)
    | SyncRequestEmit(boardId: string, fromSequence: Option<real>)

  /** Every field of the store. `hasSocket` is whether a socket object is held and
      `socketConnected` is that socket's own `connected` flag. */
  datatype ClientState = ClientState(
    connected: bool, connecting: bool, error: Option<string>,
    hasSocket: bool, socketConnected: bool,
    pendingBoardJoin: Option<PendingJoin>,
    emitted: seq<Emit>, socketsCreated: nat)

  const ConnectionFailed: string := "Socket.IO connection failed"
  const CreationFailed: string := "Failed to create Socket.IO connection"
  const ServerError: string := "Server error"

  /** The store's flags agree with its socket: it is connected exactly when it holds a
      connected socket, it is never connecting and connected at once, and no join is left
      waiting while connected. */
  predicate Consistent(st: ClientState) {
    && (st.connected <==> st.hasSocket && st.socketConnected)
    && !(st.connected && st.connecting)
    && (st.connected ==> st.pendingBoardJoin.None?)
  }

  /** The text of a server `error`: its message, or 'Server error' when that is missing or
      empty. */
  function ServerErrorText(message: Option<string>): (r: string)
    ensures r != ""
    ensures message.Some? && message.value != "" ==> r == message.value
  {
    if message.Some? && message.value != "" then message.value else ServerError
  }

  class WebSocketStore {
    /** Whether the code runs in a browser (`browser` from the app environment). */
    const browser: bool
    var connected: bool
    var connecting: bool
    var error: Option<string>
    var hasSocket: bool
    var socketConnected: bool
    var pendingBoardJoin: Option<PendingJoin>
    var emitted: seq<Emit>
    var socketsCreated: nat

    function State(): ClientState
      reads this
    {
      ClientState(connected, connecting, error, hasSocket, socketConnected, pendingBoardJoin, emitted, socketsCreated)
    }

    predicate Valid()
      reads this
    {
      Consistent(State())
    }

    constructor(inBrowser: bool)
      ensures Valid() && browser == inBrowser
      ensures State() == ClientState(false, false, None, false, false, None, [], 0)
    {
      browser := inBrowser;
      connected, connecting, error := false, false, None;
      hasSocket, socketConnected := false, false;
      pendingBoardJoin := None;
      emitted := [];
      socketsCreated := 0;
    }

    /** `connect`: nothing outside a browser or when already connected; otherwise a new
        socket is created and the store is connecting, or, when creation throws, the error
        is recorded and the old socket kept. */
    method Connect(createOk: bool)
      requires Valid()
      modifies this
      ensures Valid()
      ensures !browser || old(connected) ==> State() == old(State())
      ensures browser && !old(connected) && createOk ==>
        State() == old(State()).(connecting := true, error := None, hasSocket := true, socketConnected := false,
                                 socketsCreated := old(socketsCreated) + 1)
      ensures browser && !old(connected) && !createOk ==>
        State() == old(State()).(connecting := false, error := Some(CreationFailed))
    {
      if !browser || connected {
        return;
      }
      connecting := true;
      error := None;
      if createOk {
        hasSocket := true;
        socketConnected := false;
        socketsCreated := socketsCreated + 1;
      } else {
        error := Some(CreationFailed);
        connecting := false;
      }
    }

    /** `joinBoard`: on a connected socket the join is emitted at once; otherwise it
        becomes the pending join (replacing any earlier one) and a connection is started
        unless one is already connecting. */
    method JoinBoard(boardId: string, sessionColor: Option<string>, createOk: bool)
      requires Valid()
      modifies this
      ensures Valid()
      ensures old(hasSocket && socketConnected) ==>
        State() == old(State()).(emitted := old(emitted) + [JoinBoardEmit(boardId, sessionColor)])
      ensures !old(hasSocket && socketConnected) ==>
        pendingBoardJoin == Some(PendingJoin(boardId, sessionColor)) && emitted == old(emitted)
      ensures !old(hasSocket && socketConnected) && old(connecting) ==>
        State() == old(State()).(pendingBoardJoin := Some(PendingJoin(boardId, sessionColor)))
      ensures !old(hasSocket && socketConnected) && !old(connecting) && !browser ==>
        State() == old(State()).(pendingBoardJoin := Some(PendingJoin(boardId, sessionColor)))
      ensures !old(hasSocket && socketConnected) && !old(connecting) && browser && createOk ==>
        State() == old(State()).(pendingBoardJoin := Some(PendingJoin(boardId, sessionColor)),
                                 connecting := true, error := None, hasSocket := true, socketConnected := false,
                                 socketsCreated := old(socketsCreated) + 1)
      ensures !old(hasSocket && socketConnected) && !old(connecting) && browser && !createOk ==>
        State() == old(State()).(pendingBoardJoin := Some(PendingJoin(boardId, sessionColor)),
                                 connecting := false, error := Some(CreationFailed))
    {
      if hasSocket && socketConnected {
        emitted := emitted + [JoinBoardEmit(boardId, sessionColor)];
      } else {
        pendingBoardJoin := Some(PendingJoin(boardId, sessionColor));
        if !connecting && !connected {
          Connect(createOk);
        }
      }
    }

    /** The socket's `connect` event: connected, not connecting, no error, and a pending
        join is emitted once and cleared. */
    method OnConnect()
      requires Valid() && hasSocket
      modifies this
      ensures Valid()
      ensures connected && !connecting && error.None? && pendingBoardJoin.None?
      ensures old(pendingBoardJoin).None? ==>
        State() == old(State()).(connected := true, connecting := false, error := None, socketConnected := true)
      ensures old(pendingBoardJoin).Some? ==>
        var p := old(pendingBoardJoin).value;
        State() == old(State()).(connected := true, connecting := false, error := None, socketConnected := true,
                                 pendingBoardJoin := None,
                                 emitted := old(emitted) + [JoinBoardEmit(p.boardId, p.sessionColor)])
    {
      socketConnected := true;
      connected := true;
      connecting := false;
      error := None;
      if pendingBoardJoin.Some? {
        emitted := emitted + [JoinBoardEmit(pendingBoardJoin.value.boardId, pendingBoardJoin.value.sessionColor)];
        pendingBoardJoin := None;
      }
    }

    /** The socket's `disconnect` event. */
    method OnDisconnect()
      requires Valid() && hasSocket
      modifies this
      ensures Valid()
      ensures State() == old(State()).(connected := false, connecting := false, socketConnected := false)
    {
      socketConnected := false;
      connected := false;
      connecting := false;
    }

    /** The socket's `connect_error` event. */
    method OnConnectError()
      requires Valid() && hasSocket
      modifies this
      ensures Valid()
      ensures State() == old(State()).(error := Some(ConnectionFailed), connecting := false)
    {
      error := Some(ConnectionFailed);
      connecting := false;
    }

    /** A server `error` message. */
    method OnServerError(message: Option<string>)
      requires Valid()
      modifies this
      ensures Valid()
      ensures State() == old(State()).(error := Some(ServerErrorText(message)))
    {
      error := Some(ServerErrorText(message));
    }

    /** `disconnect`: the socket is closed and dropped, and the pending join forgotten.
        Closing a connected socket fires its `disconnect` event first. */
    method Disconnect()
      requires Valid()
      modifies this
      ensures Valid()
      ensures !hasSocket && !connected && pendingBoardJoin.None?
      ensures old(hasSocket && socketConnected) ==>
        State() == old(State()).(connected := false, connecting := false, hasSocket := false,
                                 socketConnected := false, pendingBoardJoin := None)
      ensures !old(hasSocket && socketConnected) ==>
        State() == old(State()).(hasSocket := false, socketConnected := false, pendingBoardJoin := None)
    {
      if hasSocket {
        if socketConnected {
          OnDisconnect();
        }
        hasSocket := false;
      }
      socketConnected := false;
      pendingBoardJoin := None;
    }

    /** `send`: emitted only on a connected socket. A drawing event with a payload is
        emitted under the same name with the same payload as any other message, so both
        branches of the source emit `(type, payload)`. */
    method Send(kind: string, payload: Json)
      requires Valid()
      modifies this
      ensures Valid()
      ensures old(hasSocket && socketConnected) ==>
        State() == old(State()).(emitted := old(emitted) + [MessageEmit(kind, payload)])
      ensures !old(hasSocket && socketConnected) ==> State() == old(State())
    {
      if hasSocket && socketConnected {
        if kind == "drawing_event" && Truthy(payload) {
          emitted := emitted + [MessageEmit("drawing_event", payload)];
        } else {
          emitted := emitted + [MessageEmit(kind, payload)];
        }
      }
    }

    /** `sendCursorMove`: emitted only on a connected socket. */
    method SendCursorMove(x: real, y: real)
      requires Valid()
      modifies this
      ensures Valid()
      ensures old(hasSocket && socketConnected) ==>
        State() == old(State()).(emitted := old(emitted) + [CursorMoveEmit(x, y)])
      ensures !old(hasSocket && socketConnected) ==> State() == old(State())
    {
      if hasSocket && socketConnected {
        emitted := emitted + [CursorMoveEmit(x, y)];
      }
    }

    /** `requestSync`: emitted only on a connected socket. */
    method RequestSync(boardId: string, fromSequence: Option<real>)
      requires Valid()
      modifies this
      ensures Valid()
      ensures old(hasSocket && socketConnected) ==>
        State() == old(State()).(emitted := old(emitted) + [SyncRequestEmit(boardId, fromSequence)])
      ensures !old(hasSocket && socketConnected) ==> State() == old(State())
    {
      if hasSocket && socketConnected {
        emitted := emitted + [SyncRequestEmit(boardId, fromSequence)];
      }
    }
  }
}
