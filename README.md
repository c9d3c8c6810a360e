# portalDraw core, modelled in Dafny

portalDraw is a collaborative whiteboard. A browser client draws strokes on a canvas and
keeps an undo history. It talks to an API server over Socket.IO: the server numbers every
drawing event per board, stores it in sqlite, relays it to the other sockets in the
board's room, and replays the history to a client that joins or asks to resync. Boards
are managed through a small REST API. Application settings (drawing, UI, collaboration,
account, accessibility and keyboard shortcuts) live in a JSON configuration file on the
server and in the client's local storage.

This project models that core:

- The client drawing store: strokes, tool and view, the undo and redo timeline, the
  stroke pipeline (moving average, interpolation, Bézier smoothing), the eraser's
  hit-testing, and the handling of live and resync events.
- The client stores for collaborators, for the socket connection and for settings.
- The keyboard-shortcut dispatcher and the `crypto.randomUUID` polyfill.
- The API server: its configuration, the board database, the board and settings routes,
  the settings file holder, and the Socket.IO handlers.

Files and what they hold:

- `types.dfy`: points, strokes, tools and drawing events.
- `json.dfy`: JSON values and JavaScript truthiness.
- `text.dfy`: JavaScript string functions.
- `sorting.dfy`: an insertion sort by an integer key.
- `geometry.dfy`: the view transforms, zooming and hit-testing.
- `pipelines.dfy`: the stroke pipeline.
- `history.dfy`: the undo timeline.
- `reconcile.dfy`: the per-event rules and resync.
- `drawing_store.dfy`: the drawing store class.
- `collaboration.dfy` and `socket_client.dfy`: the collaborator and connection stores.
- `keyboard.dfy`: the shortcut dispatcher.
- `uuid.dfy`: the UUID polyfill.
- `config.dfy`: the server configuration.
- `sqlite_text.dfy`: the SQL and date texts the database builds.
- `database.dfy`: the database class.
- `board_routes.dfy`: the board REST routes.
- `settings.dfy`: the settings records and their merges.
- `settings_config.dfy`: the server's settings holder.
- `settings_routes.dfy`: the settings REST routes.
- `settings_store.dfy`: the client settings store.
- `server.dfy`: the Socket.IO handlers.

External inputs are parameters:

- `Math.random` draws, `Date.now()` and ISO timestamps, generated UUIDs.
- Whether a file write, each database statement or read, a socket creation or an API call
  succeeds.
- What parsing a file or local storage yields.
- Whether a canvas context exists.

Stores whose fields the source updates in place are classes, with one method per source
method. The database tables are sequences of rows held by the `Database` class.

A few behaviours of the source are worth knowing. Each one is proved:

- The first drawn stroke cannot be undone: no snapshot of the empty canvas precedes it.
- Zooming in and then out with the keyboard ends at 0.96 times the starting zoom.
- Without `CORS_ORIGIN` the Vite origin is listed twice.
- A board name of only white space is accepted and stored empty.
- An explicit `is_public: null` makes a board private.
- A non-string `description` makes `POST /api/boards` answer 500.
- A `fromSequence` that is not a number returns no events, because sqlite binds `NaN` as
  NULL.
- The settings holder keeps the new settings in memory even when writing the file fails.
- Importing settings that cannot be written answers 400, not 500.
- The client's `send` emits the same message on both of its branches.

## Model

| member | source | states |
|---|---|---|
| Text.Trim | api/src/routes/boards.ts:27-33 | The result has no white space at either end, and it is a piece of the input surrounded only by white space (JavaScript `trim`). |
| Text.TrimmedAt | api/src/routes/boards.ts:27-33 | Removing the leading and then the trailing white space leaves the piece of the input that starts right after the leading white space, with only white space after it. |
| Text.JoinSplit | api/src/config.ts:6-16 | Splitting on a separator and joining with it gives back the input. |
| Text.SplitCount | api/src/config.ts:6-16 | Splitting gives one more piece than there are separators. |
| Json.Get | api/src/routes/boards.ts:69-76 | A property read is `undefined` unless the value is an object holding the key, and then it is that key's value. |
| Sorting.SortBy | src/lib/stores/drawing.svelte.ts:618 | The result is a permutation of the input, sorted ascending by the key. |
| Sorting.SortDistinctIsStrict | src/lib/stores/drawing.svelte.ts:618 | With pairwise distinct keys, the sorted result is strictly increasing. |
| Sorting.SortSorted | api/src/database.ts:169 | Sorting an already sorted sequence leaves it unchanged. |
| Sorting.StrictlySortedUnique | src/lib/stores/drawing.svelte.ts:615-659 | Two strictly increasing arrangements of the same multiset are equal. |
| Geometry.ScreenCanvasInverse | src/lib/stores/drawing.svelte.ts:192-204 | `canvasToScreen` and `screenToCanvas` are inverse to each other on positions. |
| Geometry.ZoomAt | src/lib/stores/drawing.svelte.ts:212-227 | The new zoom is the clamped product. When that equals the old zoom, the view comes back unchanged. |
| Geometry.ZoomAtKeepsFocus | src/lib/stores/drawing.svelte.ts:212-227 | The new zoom is the clamped product and lies in [0.1, 5]. The canvas point under the focus is drawn at the focus again. |
| Geometry.ZoomAtUnchanged | src/lib/stores/drawing.svelte.ts:212-227 | When clamping leaves the zoom as it was, the view does not change. |
| Geometry.PointOnSegment | src/lib/stores/drawing.svelte.ts:393-423 | A point on a segment is at distance zero from it. |
| Geometry.StrokeIntersectsPoint | src/lib/stores/drawing.svelte.ts:367-391 | The loop answers true exactly when some sample or some segment lies within the radius plus half the stroke width. |
| Geometry.SampleIsHit | src/lib/stores/drawing.svelte.ts:371-379 | A query placed exactly on a sample is a hit. |
| Geometry.PathPointIsHit | src/lib/stores/drawing.svelte.ts:381-387 | A query anywhere on the stroke's path is a hit. |
| Pipelines.Smoothed | src/lib/stores/drawing.svelte.ts:54-90 | Smoothing keeps the number of points and both end points. |
| Pipelines.SmoothPoints | src/lib/stores/drawing.svelte.ts:54-90 | The nested loops compute `Smoothed`: each interior point becomes the mean of its three-point window. |
| Pipelines.SmoothedShift | src/lib/stores/drawing.svelte.ts:54-90 | Smoothing a translated stroke gives the translated result. |
| Pipelines.HalfDistanceFloor | src/lib/stores/drawing.svelte.ts:106-110 | The step count is the largest `k` with `2k <= distance`, with no square root taken. |
| Pipelines.Inserted | src/lib/stores/drawing.svelte.ts:106-122 | Nothing is inserted into a gap of at most 3. |
| Pipelines.InterpolatePoints | src/lib/stores/drawing.svelte.ts:92-131 | The loops compute `Interpolated`: each left point followed by the points inserted after it, then the last point. |
| Pipelines.InterpolatedShortGaps | src/lib/stores/drawing.svelte.ts:92-131 | A stroke with no gap longer than 3 comes out unchanged. |
| Pipelines.InterpolatedKeeps | src/lib/stores/drawing.svelte.ts:92-131 | Every original point survives, in order, at a known position. |
| Pipelines.InterpolatedShift | src/lib/stores/drawing.svelte.ts:92-131 | Interpolation commutes with translation. |
| Pipelines.Bezier | src/lib/stores/drawing.svelte.ts:133-172 | With smoothing off or fewer than three points, the points are kept as they are. Otherwise `n` points become `3n - 3`. The end points are kept in both cases. |
| Pipelines.ApplyBezierSmoothing | src/lib/stores/drawing.svelte.ts:133-172 | The loops compute `Bezier`: four curve steps per interior point, with step 0 only for the first. |
| Pipelines.BezierThrough | src/lib/stores/drawing.svelte.ts:143-168 | The curve passes through every input point. Interior point `j` is at position `3j + 1`, and the end points are at both ends. |
| Pipelines.BezierShift | src/lib/stores/drawing.svelte.ts:133-172 | Bézier smoothing commutes with translation. |
| Pipelines.FinalPointsEnds | src/lib/stores/drawing.svelte.ts:287-296 | A finished stroke starts and ends where the pointer went down and up, and has at least as many points as were collected. |
| Pipelines.FinalPointsShift | src/lib/stores/drawing.svelte.ts:287-296 | The same gesture drawn elsewhere gives the same stroke, translated. |
| Pipelines.FinishPoints | src/lib/stores/drawing.svelte.ts:287-296 | The three passes in order compute `FinalPoints` of the raw points. |
| History.SliceTo | src/lib/stores/drawing.svelte.ts:497-507 | JavaScript `slice(0, end)`: never longer than the input, and the first `end` elements when `end` is within bounds. |
| History.SliceFrom | src/lib/stores/drawing.svelte.ts:503-505 | JavaScript `slice(start)`: the elements from `start` on, or none past the end. |
| History.RecordSpec | src/lib/stores/drawing.svelte.ts:497-507 | After `addToHistory` the new snapshot is current and last. The snapshots up to the old index are kept in order, less the oldest on overflow. Nothing after the old index survives. The bound of 50 holds. |
| History.RecordDropsRedo | src/lib/stores/drawing.svelte.ts:497-500 | Recording discards the redo branch. |
| History.UndoValid | src/lib/stores/drawing.svelte.ts:509-530 | Undo keeps the timeline well formed and the snapshots unchanged. It changes the timeline exactly when the index is positive. |
| History.RedoValid | src/lib/stores/drawing.svelte.ts:532-553 | Redo keeps the timeline well formed and the snapshots unchanged. It changes the timeline exactly when a later snapshot exists. |
| History.RedoAfterUndo | src/lib/stores/drawing.svelte.ts:509-553 | A redo after a successful undo restores the timeline. |
| History.UndoAfterRedo | src/lib/stores/drawing.svelte.ts:509-553 | An undo after a successful redo restores the timeline. |
| History.FirstChangeNotUndoable | src/lib/stores/drawing.svelte.ts:509-510 | The first change recorded on a fresh store cannot be undone. |
| History.RecordManyBounded | src/lib/stores/drawing.svelte.ts:503-506 | After any number of recordings the timeline stays well formed. The index is at the last snapshot, and the count is the smaller of 50 and the old index plus one plus the number of recordings. |
| Reconcile.RemoveIds | src/lib/stores/drawing.svelte.ts:583-588 | The result holds exactly the strokes whose id is not listed. When no stroke's id is listed, it is the input. |
| Reconcile.RemoveIdsAppend | src/lib/stores/drawing.svelte.ts:583-588 | Removing ids from a concatenation removes them from each part. |
| Reconcile.ApplyRules | src/lib/stores/drawing.svelte.ts:571-613 | A stroke event appends the stroke. A deletion removes exactly the listed ids. A clear empties the list. An undo pops exactly the last stroke. A redo appends the given strokes in order. Any other event changes nothing. |
| Reconcile.ApplyAllAppend | src/lib/stores/drawing.svelte.ts:620-650 | Replaying `a + b` is replaying `b` after `a`. |
| Reconcile.MaxSequence | src/lib/stores/drawing.svelte.ts:655-658 | The result is the sequence number of some event and is at least every event's. |
| Reconcile.ResyncOrderIndependent | src/lib/stores/drawing.svelte.ts:615-659 | With distinct sequence numbers, the resync result does not depend on the order the events arrive in. |
| Reconcile.LiveInOrderMatchesResync | src/lib/stores/drawing.svelte.ts:571-659 | Events handled live in sequence order leave the same strokes a resync of them would. |
| Reconcile.ResyncThenLive | src/lib/stores/drawing.svelte.ts:571-659 | A resync followed by later-numbered events equals one resync over all of them. |
| DrawingStoreModule.BoardIdOrUnknown | src/lib/stores/drawing.svelte.ts:306 | An unset or empty board id becomes "unknown". Any other id is kept. |
| DrawingStoreModule.HitIds | src/lib/stores/drawing.svelte.ts:353-365 | The result holds exactly the ids of the strokes hit, each once. |
| DrawingStoreModule.EraseKeepsUnhit | src/lib/stores/drawing.svelte.ts:333-351 | With distinct ids, erasing keeps exactly the strokes not hit. |
| DrawingStoreModule.WithStrokesValid | src/lib/stores/drawing.svelte.ts:497-507 | Recording the strokes shown keeps the store's invariant, whatever the strokes are. |
| DrawingStoreModule.DrawingStore.constructor | src/lib/stores/drawing.svelte.ts:5-52 | A fresh store has a black pen of size 2, no strokes, an empty history and the identity view. Its session colour is the palette entry the random draw picks. |
| DrawingStoreModule.DrawingStore.InitCanvas | src/lib/stores/drawing.svelte.ts:174-178 | Only whether a context exists changes. |
| DrawingStoreModule.DrawingStore.SetBoardId | src/lib/stores/drawing.svelte.ts:180-182 | Only the board id changes. |
| DrawingStoreModule.DrawingStore.SetSendFunction | src/lib/stores/drawing.svelte.ts:184-186 | Only the sender changes. |
| DrawingStoreModule.DrawingStore.SetTool | src/lib/stores/drawing.svelte.ts:667-669 | Only the tool changes. |
| DrawingStoreModule.DrawingStore.SetColor | src/lib/stores/drawing.svelte.ts:671-673 | Only the colour changes. |
| DrawingStoreModule.DrawingStore.Pan | src/lib/stores/drawing.svelte.ts:206-210 | The pan moves by the delta, and nothing else changes. |
| DrawingStoreModule.DrawingStore.ZoomAtPoint | src/lib/stores/drawing.svelte.ts:212-227 | The state becomes `Zoomed` of the old one: the view is `ZoomAt` of the old view, which keeps the focus fixed, and nothing else changes. |
| DrawingStoreModule.DrawingStore.ResetView | src/lib/stores/drawing.svelte.ts:229-234 | The view becomes the identity. |
| DrawingStoreModule.DrawingStore.AddToHistory | src/lib/stores/drawing.svelte.ts:497-507 | The timeline becomes `Record` of the current strokes, and the invariant is kept. |
| DrawingStoreModule.DrawingStore.Commit | src/lib/stores/drawing.svelte.ts:298-300 | The strokes are replaced and a snapshot of them is recorded (`WithStrokes` of the old state), and the invariant is kept. |
| DrawingStoreModule.DrawingStore.EmitEvent | src/lib/stores/drawing.svelte.ts:661-665 | The sequence number advances by one. The event reaches the sender only when one is set. |
| DrawingStoreModule.DrawingStore.Undo | src/lib/stores/drawing.svelte.ts:509-530 | The whole new state is `Undone` of the old one. From a positive index: step back, show that snapshot, and emit an undo event. Otherwise nothing changes. |
| DrawingStoreModule.DrawingStore.Redo | src/lib/stores/drawing.svelte.ts:532-553 | The whole new state is `Redone` of the old one. With a later snapshot: step forward, show it, and emit a redo event with the strokes it adds. Otherwise nothing changes. |
| DrawingStoreModule.DrawingStore.Clear | src/lib/stores/drawing.svelte.ts:555-569 | The strokes become empty, a snapshot is recorded, and a clear event is emitted. |
| DrawingStoreModule.DrawingStore.HandleDrawingEvent | src/lib/stores/drawing.svelte.ts:571-613 | The session's own echoes are ignored. Other events change the strokes by `Apply` and record a snapshot exactly when the rule acts. |
| DrawingStoreModule.DrawingStore.HandleSyncEvents | src/lib/stores/drawing.svelte.ts:615-659 | The strokes become `Resynced(events)`, one snapshot is recorded, and numbering continues after the largest sequence received. |
| DrawingStoreModule.DrawingStore.GetStrokesAtPoint | src/lib/stores/drawing.svelte.ts:353-365 | The result is `HitIds` at the canvas position, with the tool size as the radius. |
| DrawingStoreModule.DrawingStore.DeleteStrokesAtPoint | src/lib/stores/drawing.svelte.ts:333-351 | The hit strokes are removed, a snapshot is recorded, and one `stroke_deleted` event is emitted. With no hit, nothing changes. |
| DrawingStoreModule.DrawingStore.UpdateCursor | src/lib/stores/drawing.svelte.ts:320-331 | With the stroke eraser, the highlight is the strokes under the pointer. Otherwise it is empty. |
| DrawingStoreModule.DrawingStore.StartStroke | src/lib/stores/drawing.svelte.ts:236-260 | Without a context or with the hand tool, nothing happens. The stroke eraser erases. Any other tool starts a stroke at the canvas position. |
| DrawingStoreModule.DrawingStore.AddPoint | src/lib/stores/drawing.svelte.ts:262-282 | While drawing, the raw point is collected. The stroke shown is the moving average once there are more than two points and smoothing is on; otherwise the point is appended. |
| DrawingStoreModule.DrawingStore.EndStroke | src/lib/stores/drawing.svelte.ts:284-318 | The finished stroke is appended, a snapshot is recorded, a stroke event is emitted, and the drawing state is reset. |
| DrawingStoreModule.DrawingStore.FinishedStroke | src/lib/stores/drawing.svelte.ts:287-303 | The stroke's points are `FinalPoints` of the raw points when smoothing is on and more than two raw points were collected. Otherwise they are the points as drawn: the raw points, unless smoothing was switched on during the stroke, in which case they are the moving averages `AddPoint` displayed. |
| Collaboration.FindIndex | src/lib/stores/collaboration.svelte.ts:10 | The result is -1 exactly when no entry has the id. Otherwise it is the first entry with that id. |
| Collaboration.Others | src/lib/stores/collaboration.svelte.ts:43-45 | The result holds exactly the entries that are not the current session's, in list order (a subsequence of the list). |
| Collaboration.WithCursors | src/lib/stores/collaboration.svelte.ts:47-51 | The result holds exactly the other entries that are online and have a cursor, in list order (a subsequence of the list). |
| Collaboration.OthersCount | src/lib/stores/collaboration.svelte.ts:43-45 | With distinct ids, the count is one less than the list exactly when the current session is listed. |
| Collaboration.RemoveAtDistinct | src/lib/stores/collaboration.svelte.ts:24-29 | Splicing out an entry keeps the ids distinct and drops that id. |
| Collaboration.CollaborationStore.constructor | src/lib/stores/collaboration.svelte.ts:4-7 | The store starts with no sessions, no current session and colour `#3498db`. |
| Collaboration.CollaborationStore.AddSession | src/lib/stores/collaboration.svelte.ts:9-22 | A new id is appended online. A known id is only marked online. The ids stay distinct. |
| Collaboration.CollaborationStore.RemoveSession | src/lib/stores/collaboration.svelte.ts:24-29 | The entry is spliced out and the others keep their order. An unknown id changes nothing. |
| Collaboration.CollaborationStore.UpdateCursor | src/lib/stores/collaboration.svelte.ts:31-36 | Only that entry's cursor changes. An unknown id changes nothing. |
| Collaboration.CollaborationStore.SetCurrentSession | src/lib/stores/collaboration.svelte.ts:38-41 | The current id and colour are set. |
| Collaboration.CollaborationStore.ActiveSessionCount | src/lib/stores/collaboration.svelte.ts:43-45 | The count is everyone listed except this client's own session. |
| Collaboration.CollaborationStore.SessionsWithCursors | src/lib/stores/collaboration.svelte.ts:47-51 | The result holds exactly the other online sessions that have a cursor. |
| SocketClient.ServerErrorText | src/lib/stores/websocket.svelte.ts:111-114 | The text is never empty. It is the server's message whenever that message is non-empty. |
| SocketClient.WebSocketStore.constructor | src/lib/stores/websocket.svelte.ts:37-51 | The store starts disconnected, with no socket and nothing emitted. |
| SocketClient.WebSocketStore.Connect | src/lib/stores/websocket.svelte.ts:53-121 | Outside a browser or when connected, nothing changes. Otherwise a socket is created and the store is connecting, or a creation failure is recorded. |
| SocketClient.WebSocketStore.JoinBoard | src/lib/stores/websocket.svelte.ts:131-142 | A connected socket emits the join at once. While a connection is in progress the join is only kept pending. Otherwise the join is kept pending and nothing else changes outside a browser. In a browser a created socket leaves the store connecting, and a failed creation records the error and stops connecting. |
| SocketClient.WebSocketStore.OnConnect | src/lib/stores/websocket.svelte.ts:64-74 | The store becomes connected, and a pending join is emitted once and cleared. |
| SocketClient.WebSocketStore.OnDisconnect | src/lib/stores/websocket.svelte.ts:76-79 | The store is neither connected nor connecting. |
| SocketClient.WebSocketStore.OnConnectError | src/lib/stores/websocket.svelte.ts:81-85 | The connection-failed error is recorded, and the store is no longer connecting. |
| SocketClient.WebSocketStore.OnServerError | src/lib/stores/websocket.svelte.ts:111-114 | Only the error changes, to `ServerErrorText`. |
| SocketClient.WebSocketStore.Disconnect | src/lib/stores/websocket.svelte.ts:123-129 | The socket is dropped and the pending join forgotten. |
| SocketClient.WebSocketStore.Send | src/lib/stores/websocket.svelte.ts:144-153 | On a connected socket `(type, payload)` is emitted. Otherwise nothing changes. |
| SocketClient.WebSocketStore.SendCursorMove | src/lib/stores/websocket.svelte.ts:155-159 | The cursor is emitted only on a connected socket. |
| SocketClient.WebSocketStore.RequestSync | src/lib/stores/websocket.svelte.ts:161-165 | The sync request is emitted only on a connected socket. |
| KeyboardShortcuts.MatchesShortcut | src/lib/services/keyboard-shortcuts.ts:87-98 | A match needs each of the four modifiers to agree with the binding, an absent one counting as not pressed. A binding written as the space character matches only the space bar or a key named "space" in any letter case. |
| KeyboardShortcuts.MatchesIgnoringCase | src/lib/services/keyboard-shortcuts.ts:87-98 | Keys are compared without regard to letter case, and every modifier must agree, an absent one counting as not pressed. |
| KeyboardShortcuts.SpaceAlias | src/lib/services/keyboard-shortcuts.ts:88-89 | The space bar and a binding written "space" match each other. |
| KeyboardShortcuts.IsInputElement | src/lib/services/keyboard-shortcuts.ts:100-110 | No target is never an input, and `contenteditable="true"` always makes one. |
| KeyboardShortcuts.InputElementCases | src/lib/services/keyboard-shortcuts.ts:100-110 | No target is not an input. Tag names are compared without regard to case. Only `contenteditable="true"` makes an input. |
| KeyboardShortcuts.Bindings | src/lib/services/keyboard-shortcuts.ts:42-84 | Fourteen bindings, in the order the dispatcher tries them: tools, then canvas, then ui. |
| KeyboardShortcuts.FirstMatch | src/lib/services/keyboard-shortcuts.ts:42-84 | The result is the action of the earliest binding the event matches, or none. |
| KeyboardShortcuts.Dispatch | src/lib/services/keyboard-shortcuts.ts:36-85 | An action is dispatched only when shortcuts are enabled and the target is not an input, and it is the action of a binding the event matches. |
| KeyboardShortcuts.DispatchSpec | src/lib/services/keyboard-shortcuts.ts:36-85 | Nothing happens when shortcuts are disabled, the target is an input, or no binding matches. Otherwise the earliest matching binding fires. |
| KeyboardShortcuts.DefaultSpaceIsHand | api/src/settings-config.ts:98-104 | Under the defaults, the space bar selects the hand tool. |
| KeyboardShortcuts.DefaultCtrlZUndoes | api/src/settings-config.ts:105-106 | Under the defaults, Ctrl+Z undoes, also as an upper-case key. |
| KeyboardShortcuts.DefaultCtrlShiftZIgnored | api/src/settings-config.ts:105-113 | Under the defaults, Ctrl+Shift+Z does nothing. |
| KeyboardShortcuts.ToolFor | src/lib/services/keyboard-shortcuts.ts:112-147 | Each tool shortcut selects its tool. The highlighter has opacity 0.5 and the others 1. The hand has size 1 and the others the default brush size. |
| KeyboardShortcuts.ZoomCentre | src/lib/services/keyboard-shortcuts.ts:164-173 | The zoom centre is the canvas centre, or (400, 300) when there is no canvas or it has no size. |
| KeyboardShortcuts.ZoomInThenOut | src/lib/services/keyboard-shortcuts.ts:164-173 | Away from the limits, zooming in and then out ends at 0.96 times the starting zoom. |
| KeyboardShortcuts.HandleKeyboardEvent | src/lib/services/keyboard-shortcuts.ts:36-181 | The dispatched action is `Dispatch`. With none, nothing changes and no signal is given. A tool selects `ToolFor`. Undo and redo give `Undone` and `Redone` of the old state. Clear empties the strokes only when confirmed. Zooming in and out gives `Zoomed` about the zoom centre, and reset gives the identity view. Save and the ui actions leave the store as it was and give their signal. The other actions give none. |
| UuidPolyfill.ByteHexDigits | src/lib/polyfills.ts:16 | Each byte becomes two lower-case hex digits, high nibble first, zero-padded. |
| UuidPolyfill.HexOf | src/lib/polyfills.ts:16 | The hex text has two digits per byte, and digit `k` is the right nibble of byte `k / 2`. |
| UuidPolyfill.MaskedKeepsRandomBits | src/lib/polyfills.ts:13-14 | Setting the version and variant keeps the other 122 random bits. |
| UuidPolyfill.FormatUuidShape | src/lib/polyfills.ts:13-23 | A formatted UUID has the version-4 shape: 36 characters, dashes at 8, 13, 18 and 23, '4' at 14, and 8, 9, a or b at 19. |
| UuidPolyfill.DashedLayout | src/lib/polyfills.ts:17-23 | Each character of the dashed text comes from a known hex position or is a dash. |
| UuidPolyfill.ParseHexOf | src/lib/polyfills.ts:16 | Reading the hex digits back gives the bytes. |
| UuidPolyfill.FormatUuidRoundTrip | src/lib/polyfills.ts:13-23 | Removing the dashes and reading the hex gives back the masked bytes. |
| UuidPolyfill.SetVersionAndVariant | src/lib/polyfills.ts:13-14 | The array holds the masked bytes afterwards. |
| UuidPolyfill.RandomUuidFromBytes | src/lib/polyfills.ts:10-23 | The result is the formatted UUID of the masked random bytes. |
| UuidPolyfill.Fill | src/lib/polyfills.ts:25-29 | Each 'x' becomes a hex digit, each 'y' one of 8, 9, a or b, and every other character is kept. |
| UuidPolyfill.TemplateShape | src/lib/polyfills.ts:25-29 | The template fallback has the same version-4 shape as the byte path. |
| UuidPolyfill.GlobalScope.Install | src/lib/polyfills.ts:3-8 | `crypto` is created when missing, and the polyfill is installed only where `randomUUID` is missing. |
| UuidPolyfill.GlobalScope.PolyfillRandomUuid | src/lib/polyfills.ts:8-31 | The byte path is taken when `getRandomValues` exists, and the template otherwise. Either way the result has the version-4 shape. |
| ServerConfig.TrimAll | api/src/config.ts:6-16 | The result has the same length, and entry `k` is `Trim` of input entry `k`. |
| ServerConfig.ParseOrigins | api/src/config.ts:6-16 | Without an https origin the result is a list of at least three entries, ending with the development and the Vite origin. |
| ServerConfig.ParseOriginsSpec | api/src/config.ts:6-16 | The entries are the trimmed comma pieces, followed by the two local origins unless the input names an https origin. The result is a single string exactly when one entry remains, which only https input without a comma can give. |
| ServerConfig.ParsedEntriesClean | api/src/config.ts:6-16 | No parsed entry holds a comma or has white space at either end. |
| ServerConfig.DefaultCorsOrigins | api/src/config.ts:18 | Without `CORS_ORIGIN` the list is the Vite origin, the development origin, and the Vite origin again. |
| ServerConfig.PlainOrigin | api/src/config.ts:6-16 | A plain http origin is kept and followed by the two local origins. |
| ServerConfig.DisableGlobalSettingsExact | api/src/config.ts:41 | Only the exact text "true" disables global settings. |
| SqliteText.JoinCommaSnoc | api/src/database.ts:119-126 | Joining with one more part appends `", "` and the part. |
| SqliteText.Assignments | api/src/database.ts:119 | There is one `column = ?` per field, in order. |
| SqliteText.EmptyUpdateAsWritten | api/src/database.ts:117-134 | With no field, the SET list as written begins with a comma. |
| SqliteText.SetListSpec | api/src/database.ts:117-134 | The corrected SET list always begins with a column name. It equals the text as written when at least one field is updated. |
| SqliteText.SameDayAlwaysActive | api/src/database.ts:236 | On the cutoff's date, the text comparison accepts any time of day. |
| SqliteText.ActiveAsWritten | api/src/database.ts:236 | A `last_seen` text that passes is non-empty and differs from the cutoff text. |
| SqliteText.LexLessAsymmetric | api/src/database.ts:236 | Of two texts, at most one sorts before the other in sqlite's text order. |
| SqliteText.TimeOfMillis | api/src/database.ts:192 | The time of day is valid and lies exactly the given milliseconds after midnight. |
| SqliteText.SameDayPassesText | api/src/database.ts:236 | An instant written by `toISOString` on the same UTC day as the cutoff passes the text comparison, whichever of the two is earlier. |
| BoardDatabase.Stored | api/src/database.ts:89 | A bound value is never stored as a boolean, an array or an object. `null`, numbers and strings are kept. True and false become 1 and 0. An array or an object becomes the text of its `toString()`. |
| BoardDatabase.StoredIdempotent | api/src/database.ts:89 | Binding a stored value again stores the same value. |
| BoardDatabase.StoredTexts | api/src/database.ts:127 | `["a"]` is stored as "a". `[1, null, [true, "x"]]` is stored as "1,,true,x". An object is stored as "[object Object]". |
| BoardDatabase.EventsQuerySpec | api/src/database.ts:159-186 | The result holds exactly the board's events past the bound (all of them without one), with multiplicity, in ascending sequence order. |
| BoardDatabase.FullHistoryIsReplayFromZero | api/src/database.ts:164-167 | With positive sequence numbers, no bound and bound 0 give the same events. |
| BoardDatabase.CursorOf | api/src/database.ts:249 | A cursor is reported exactly when both columns are set and non-zero. |
| BoardDatabase.ZeroCoordinateHidesCursor | api/src/database.ts:249 | A zero coordinate hides the cursor. |
| BoardDatabase.ActiveRows | api/src/database.ts:232-238 | The result holds exactly the board's rows that pass the chosen comparison. `AsTimes` passes rows seen in the last five minutes. `AsText` passes rows whose `last_seen` text sorts after sqlite's cutoff text. |
| BoardDatabase.ActiveSessionsSpec | api/src/database.ts:232-256 | The result holds exactly the board's sessions whose rows pass the chosen comparison, ordered by joining time, each with the cursor its row reports. With `AsTimes`, the intended filter, each was seen in the last five minutes. |
| BoardDatabase.SameDayRowPasses | api/src/database.ts:232-238 | A row seen on the same UTC day as the cutoff passes the filter sqlite runs, however long ago. |
| BoardDatabase.Touched | api/src/database.ts:211-230 | Only that session's row changes: its last-seen time, and its cursor when one is given. |
| BoardDatabase.WithoutSession | api/src/database.ts:258-269 | Exactly the rows with another id remain. |
| BoardDatabase.WithoutSessionAbsent | api/src/database.ts:258-269 | Deleting an id with no row deletes nothing. |
| BoardDatabase.WithoutSessionIdempotent | api/src/database.ts:258-269 | Deleting twice is deleting once. |
| BoardDatabase.UpdatedRow | api/src/database.ts:117-134 | Every listed column except `id` takes its stored value, `updated_at` is refreshed, and nothing else changes. |
| BoardDatabase.UpdatedRowEmpty | api/src/database.ts:117-134 | The intended update that lists no column refreshes `updated_at` and nothing else. |
| BoardDatabase.StaleSessionCounterexample | api/src/database.ts:236 | A session last seen at midnight passes the text filter at noon the same day, while the comparison on times rejects it. `ActiveSessions` lists it with `AsText` and leaves it out with `AsTimes`. |
| BoardDatabase.Database.constructor | api/src/database.ts:20-69 | The database starts with empty tables. |
| BoardDatabase.Database.GetBoardById | api/src/database.ts:104-115 | A row exactly when a board has that id, and then that board's row. |
| BoardDatabase.Database.GetDrawingEvents | api/src/database.ts:159-186 | Exactly the board's events past the bound (all of them without one), in ascending sequence order. |
| BoardDatabase.Database.GetActiveSessions | api/src/database.ts:232-256 | Exactly the board's sessions whose `last_seen` text sorts after sqlite's cutoff text, in order of joining. |
| BoardDatabase.Database.CreateBoard | api/src/database.ts:83-102 | The row is inserted with both timestamps `now`, and the board is returned. A failed insert or a taken id is an error that changes nothing. |
| BoardDatabase.Database.UpdateBoard | api/src/database.ts:117-134 | A list with no column other than `id` is an error that changes nothing, because the SET list as written then begins with a comma. So are an unknown column and a failed statement. Otherwise the row becomes `UpdatedRow`, and other rows are kept. |
| BoardDatabase.Database.SaveDrawingEvent | api/src/database.ts:137-157 | Exactly one row carrying the whole event is appended, or nothing changes on error. |
| BoardDatabase.Database.CreateSession | api/src/database.ts:190-209 | A new row is added with both times `now` and no cursor, and the returned session matches it. |
| BoardDatabase.Database.UpdateSessionActivity | api/src/database.ts:211-230 | On success the sessions become `Touched`. A failed statement is an error that changes nothing. |
| BoardDatabase.Database.RemoveSession | api/src/database.ts:258-269 | On success the sessions become `WithoutSession`. A failed statement is an error (the promise rejects) that changes nothing. |
| BoardRoutes.RequiredName | api/src/routes/boards.ts:21-25 | No name exactly when `name` is missing, falsy or not a string. A given name comes back trimmed. |
| BoardRoutes.DescriptionOf | api/src/routes/boards.ts:21-30 | A missing or null description becomes "", and a string is trimmed. Any other value is an error (the route answers 500). |
| BoardRoutes.IsPublicOf | api/src/routes/boards.ts:21-32 | A missing value is true. Otherwise the value's truthiness decides. |
| BoardRoutes.NewBoardFields | api/src/routes/boards.ts:27-33 | Name and description have no surrounding white space, and null, false, 0 or "" make the board private. |
| BoardRoutes.BlankNameAccepted | api/src/routes/boards.ts:21-28 | A name of only white space passes the check and is stored empty. |
| BoardRoutes.LeadingDigits | api/src/routes/boards.ts:115-116 | The longest prefix made only of digits. |
| BoardRoutes.Decimal | api/src/routes/boards.ts:115-116 | The decimal text of `n` is non-empty digits without a leading zero, and its value is `n`. |
| BoardRoutes.ParseInt | api/src/routes/boards.ts:115-116 | Blank text gives NaN. A negative result needs a minus sign right after the leading white space. |
| BoardRoutes.ParseIntOfDecimal | api/src/routes/boards.ts:115-116 | `parseInt` reads back a signed decimal followed by any non-digit text. |
| BoardRoutes.ParseIntSkipsSpace | api/src/routes/boards.ts:115-116 | `parseInt` skips leading white space. |
| BoardRoutes.ParseIntRejects | api/src/routes/boards.ts:115-116 | Text that does not start (after white space and a sign) with a digit gives NaN. |
| BoardRoutes.BoundOf | api/src/routes/boards.ts:115-116 | No or empty `fromSequence` means no bound. Otherwise the bound is the parsed number, or NaN. |
| BoardRoutes.EventsAfter | api/src/routes/boards.ts:115-117 | With no bound, the full history. With a number, the events past it. With NaN, no events. |
| BoardRoutes.FromSequenceDecimal | api/src/routes/boards.ts:115-116 | A decimal `fromSequence`, optionally followed by non-digit text, is the bound it spells. |
| BoardRoutes.ZeroBoundIsFullHistory | api/src/routes/boards.ts:115-117 | With positive sequence numbers, `fromSequence=0` returns the full history. |
| BoardRoutes.AllowedPart | api/src/routes/boards.ts:69-76 | The allowed part keeps exactly the body's keys among name, description, drawing_data and is_public, with their values. |
| BoardRoutes.FilterUpdates | api/src/routes/boards.ts:69-76 | The loop computes `AllowedPart`. |
| BoardRoutes.PutKeepsOtherColumns | api/src/routes/boards.ts:69-81 | A PUT never touches `id` or `created_at`. |
| BoardRoutes.PutCanForwardNothing | api/src/routes/boards.ts:69-78 | The forwarded update is empty exactly when the body has none of the four fields. |
| BoardRoutes.PostBoard | api/src/routes/boards.ts:19-41 | A bad name gives 400 and changes nothing. A bad description, a taken id or a failed insert gives 500 and changes nothing. Otherwise 201 with the new board, which is stored. |
| BoardRoutes.GetBoard | api/src/routes/boards.ts:43-57 | A failed read gives 500. Otherwise the board, or 404. |
| BoardRoutes.PutBoard | api/src/routes/boards.ts:59-86 | A failed read gives 500. An unknown board gives 404. A body with none of the four fields gives 500 and changes nothing, because the statement as written is rejected. A failed update does the same. Otherwise the row becomes `UpdatedRow` of the allowed fields, and 200 carries the re-read row (500 when that read fails). |
| BoardRoutes.DeleteBoard | api/src/routes/boards.ts:88-103 | A failed read gives 500. An unknown board gives 404. Otherwise the answer is 500 and nothing changes. |
| BoardRoutes.GetEvents | api/src/routes/boards.ts:105-123 | A failed read of the board or of its events gives 500. An unknown board gives 404. Otherwise the answer is `EventsAfter` the parsed bound. |
| BoardRoutes.GetSessions | api/src/routes/boards.ts:125-140 | A failed read gives 500. An unknown board gives 404. Otherwise the answer is the board's sessions that pass sqlite's text comparison, ordered by joining time. |
| Settings.ValidateAndMerge | api/src/settings-config.ts:183-224 | The version is never empty: it is the loaded one when that is non-empty. The export date is the loaded one. |
| Settings.EmptyLoadIsDefaults | api/src/settings-config.ts:183-224 | An empty file gives the defaults. |
| Settings.FullLoadIsKept | api/src/settings-config.ts:183-224 | A file with every key is kept, except that an empty version falls back to the default. |
| Settings.ValidateAndMergeSections | api/src/settings-config.ts:183-224 | Each section is the default section with the loaded keys laid over it, down to each shortcut binding. |
| Settings.MergeUpdates | api/src/settings-config.ts:230-282 | The version is the update's when it names one, and the current one otherwise. An update without an export date or without shortcuts keeps the current ones. |
| Settings.MergeUpdatesNoKeys | api/src/settings-config.ts:230-282 | An update without keys changes nothing. |
| Settings.MergeUpdatesAllKeys | api/src/settings-config.ts:230-282 | An update with every key replaces everything. |
| Settings.MergeUpdatesIdempotent | api/src/settings-config.ts:230-282 | Applying the same update twice is applying it once. |
| Settings.MergeUpdatesKeepsAbsent | api/src/settings-config.ts:230-282 | Every field the update does not name keeps its value, down to single bindings. |
| Settings.ValidateIsUpdateOfDefaults | src/lib/stores/settings.svelte.ts:329-370 | Filling from the defaults is the update merge applied to the defaults, except for the falsy-version fallback. |
| SettingsConfigModule.SettingsConfig.constructor | api/src/settings-config.ts:135-138 | A fresh holder holds the defaults. |
| SettingsConfigModule.SettingsConfig.Initialize | api/src/settings-config.ts:140-181 | An existing file is loaded and filled from the defaults. Without a file, the stamped defaults are written and taken. A failed write is reported, and the settings stay as they were. |
| SettingsConfigModule.SettingsConfig.UpdateSettings | api/src/settings-config.ts:230-282 | The settings become the merge with a fresh date, even when the write fails. |
| SettingsConfigModule.SettingsConfig.ResetToDefaults | api/src/settings-config.ts:284-299 | The settings become the defaults with a fresh date. |
| SettingsConfigModule.SettingsConfig.ImportSettings | api/src/settings-config.ts:301-318 | The settings become the import filled from the defaults, with a fresh date. |
| SettingsConfigModule.SettingsConfig.Save | api/src/settings-config.ts:320-327 | The file receives the current settings, or the caller's error is returned. |
| SettingsRoutes.RefusalsMentionGlobalSettings | api/src/routes/settings.ts:22-85 | Every 403 refusal names "Global settings". |
| SettingsRoutes.GetRoute | api/src/routes/settings.ts:9-20 | The settings and the flag, whatever the flag. |
| SettingsRoutes.PutRoute | api/src/routes/settings.ts:22-42 | When disabled: 403, and the holder is not touched. Otherwise the merged settings, or 500. The file then holds the new settings when the write succeeds and is unchanged when it fails. |
| SettingsRoutes.ResetRoute | api/src/routes/settings.ts:44-63 | When disabled: 403. Otherwise the defaults, or 500. The file then holds the new settings when the write succeeds and is unchanged when it fails. |
| SettingsRoutes.ImportRoute | api/src/routes/settings.ts:65-85 | When disabled: 403. Otherwise the filled import, or 400 when it cannot be written. The file then holds the new settings when the write succeeds and is unchanged when it fails. |
| SettingsStoreModule.SectionUpdateAbsorbed | src/lib/stores/settings.svelte.ts:231-243 | Sending the whole section has the same effect as sending the partial update. |
| SettingsStoreModule.RefusalsSwitchToLocal | src/lib/stores/settings.svelte.ts:115 | The server's refusals are exactly the errors that switch the store to local mode. |
| SettingsStoreModule.SettingsStore.constructor | src/lib/stores/settings.svelte.ts:8-12 | A fresh store shows the defaults and is in server mode. |
| SettingsStoreModule.SettingsStore.LoadLocal | src/lib/stores/settings.svelte.ts:248-261 | Saved local settings, filled from the defaults, replace the current ones. Without any, nothing changes. |
| SettingsStoreModule.SettingsStore.UpdateLocal | src/lib/stores/settings.svelte.ts:279-324 | The update is merged into the current settings and saved. |
| SettingsStoreModule.SettingsStore.InitializeSettings | src/lib/stores/settings.svelte.ts:62-72 | The server-rendered settings are taken, and replaced by the local ones in local mode. |
| SettingsStoreModule.SettingsStore.LoadSettings | src/lib/stores/settings.svelte.ts:74-95 | On success, the server's settings and flag are taken, with local settings winning in local mode. On failure the error is recorded. Loading ends false. |
| SettingsStoreModule.SettingsStore.UpdateSettings | src/lib/stores/settings.svelte.ts:100-128 | In local mode the update is merged locally. A "Global settings" refusal switches to local mode and merges locally. Any other error is recorded and rethrown with the settings unchanged. |
| SettingsStoreModule.SettingsStore.ResetToDefaults | src/lib/stores/settings.svelte.ts:133-163 | When global settings are disabled, the defaults are taken and saved locally, without a call. On success the server's settings are taken. A "Global settings" refusal switches to local mode and takes the defaults locally. Any other error is recorded and returned, with the settings, the local copy and the mode unchanged. |
| SettingsStoreModule.SettingsStore.ImportSettings | src/lib/stores/settings.svelte.ts:168-198 | When global settings are disabled, the imported record is taken and saved locally as it is, without a call. On success the server's settings are taken. A "Global settings" refusal switches to local mode and takes the import locally. Any other error is recorded and returned, with the settings, the local copy and the mode unchanged. |
| SettingsStoreModule.SettingsStore.UpdateSection | src/lib/stores/settings.svelte.ts:231-243 | The same outcome as `UpdateSettings` with the section merged into the current one. When global settings are disabled, or after a "Global settings" refusal, the settings become that merge and are saved locally. On success the server's settings are taken. Any other error is recorded and returned, with nothing else changed. |
| SocketServer.RandomColor | api/src/websocket.ts:170-189 | The result is one of the palette colours. |
| SocketServer.ToOthers | api/src/websocket.ts:62-65 | The recipients are the room's sockets other than the sender. |
| SocketServer.Joined | api/src/websocket.ts:44 | After joining, the socket is in the room and no other membership changes. |
| SocketServer.LeftAll | api/src/websocket.ts:143-161 | After leaving, the socket is in no room and every other membership is kept. |
| SocketServer.LeftAllIdempotent | api/src/websocket.ts:143-161 | Leaving twice is leaving once. |
| SocketServer.NextSequence | api/src/websocket.ts:165-168 | The next number is 1 with no events, and otherwise one more than the largest. |
| SocketServer.NextSequenceAbove | api/src/websocket.ts:165-168 | The next number exceeds every stored sequence number of the board. |
| SocketServer.SaveKeepsSequencesIncreasing | api/src/websocket.ts:77-111 | Storing an event numbered by `NextSequence` keeps each board's numbering increasing. |
| SocketServer.ReplayStrictlyIncreasing | api/src/websocket.ts:132-141 | The replay is strictly increasing in sequence number. Sorting it changes nothing, since the table already holds it in that order. |
| SocketServer.BoardEventsIncreasing | api/src/websocket.ts:77-111 | A board's stored events, with or without a bound, are strictly increasing in sequence number. |
| SocketServer.WebSocketHandler.constructor | api/src/websocket.ts:15-28 | The handler starts on the given database with no sessions, no rooms and an empty outbox. |
| SocketServer.WebSocketHandler.JoinBoard | api/src/websocket.ts:34-75 | A failed board lookup sends "Failed to join board", and an unknown board gets "Board not found"; nothing else changes. Otherwise the socket joins the room. A failed insert then sends "Failed to join board" and leaves no session. A stored session is confirmed to the sender and announced to the room, and the sender gets the full history, or "Failed to join board" when reading it fails. |
| SocketServer.WebSocketHandler.EnterBoard | api/src/websocket.ts:44-73 | For an existing board, the socket joins the room. A failed insert sends "Failed to join board" and leaves no session. Otherwise the session is stored, confirmed to the sender and announced to the room, and the sender gets the board's history, or "Failed to join board" when reading it fails. |
| SocketServer.WebSocketHandler.DrawingEvent | api/src/websocket.ts:77-111 | Without a session, "No active session". Otherwise the event is built from the server-side fields. When reading the history or storing fails, "Failed to process drawing event" goes to the sender and nothing is stored. A stored event is relayed; then the activity is refreshed, or "Failed to process drawing event" follows the relay when that update fails. |
| SocketServer.WebSocketHandler.SaveAndRelay | api/src/websocket.ts:88-109 | The event takes the session's board and id and the next sequence number of that board. When reading the history or the insert fails, "Failed to process drawing event" goes to the sender and nothing is stored. Otherwise the event is appended and relayed to the rest of the room. The session's activity is then refreshed, or, when that update fails, the sender also gets "Failed to process drawing event". |
| SocketServer.WebSocketHandler.CursorMove | api/src/websocket.ts:113-130 | Without a session, or when the activity update fails, nothing is stored or relayed. Otherwise the cursor is stored and relayed to the rest of the room. |
| SocketServer.WebSocketHandler.SyncRequest | api/src/websocket.ts:132-141 | The board's events past the bound go to the requester, or "Failed to sync events" when the read fails. |
| SocketServer.WebSocketHandler.Disconnect | api/src/websocket.ts:143-161 | The socket leaves every room. With a session whose row is deleted, the entry is dropped and the room is told. When the deletion fails, the entry, the row and the outbox are kept. |

## Left out

- `GET /api/boards` and `Database.getBoards` (`api/src/database.ts:71-81`) are not modelled. They return the whole boards table, and the model keeps boards in a map without an order.
- Rendering (`redraw` and drawing on the canvas), DOM events, timers and Svelte reactivity are not modelled. They produce no state the core reads back.
- The client `apiManager`, `services/api.ts` and the SvelteKit server hooks are not modelled. Their outcomes reach the stores as parameters.
- Logging, Express and Socket.IO wiring, and file-system and local-storage I/O are not modelled. Their results are parameters.
- Floating-point arithmetic is modelled with exact reals. Rounding is not modelled, except where the source floors or truncates.
- `Math.sqrt` is avoided: distances are compared squared, and `HalfDistanceFloor` computes `floor(sqrt(d) / 2)` by search.
- Request bodies that are not JSON objects, and array-valued query parameters, are not modelled. Express hands the routes an object and a string there.
- BoardRoutes.ParseInt: reads digits exactly. It does not model the precision loss of very long numbers.
- BoardRoutes.DeleteBoard: `db.deleteBoard` does not exist in the database class, so the call throws. The model answers 500 without changing anything, as that throw does.
- SocketClient.WebSocketStore.Disconnect: a `disconnect` while a connection is still being made is not modelled separately from a disconnected socket.
- The client's `DEFAULT_SETTINGS` is taken to be the server's. The client file that defines it is not part of this model.
- `exportSettings` and `setSyncFunction` are not modelled. One only downloads a file and the other only stores a callback that the core never calls.
- Concurrency between sockets is not modelled. Each handler runs to completion, in arrival order.
- KeyboardShortcuts.MatchesIgnoringCase: letter case is folded for ASCII `A`–`Z` only (`Text.Lower`), while `toLowerCase` folds every letter that has a case, so a binding "é" does not match a key "É" in the model. Unicode case mapping tables are not modelled.
- BoardDatabase.Database.GetActiveSessions: `toISOString` and sqlite's `datetime` are modelled for UTC instants whose year lies in 0000–9999. Years outside that range use the same date text.
- BoardDatabase.Stored: numbers are exact reals. Inside an array, a number is written as its exact decimal digits, with at most twenty after the point. JavaScript's shortest text for a double and its exponent notation are not modelled.
- SettingsStoreModule.SettingsStore: the store is taken to run in a browser, so the `browser` guards at `src/lib/stores/settings.svelte.ts:66`, `:85`, `:249` and `:267` always hold. `localStorage.setItem` is taken to succeed. Its failure is caught and only logged (`:270-273`), and that path is not modelled.
- SocketServer.WebSocketHandler.SyncRequest: the bound `fromSequence` is either absent or an integer. A payload with `fromSequence: null` would be bound as NULL and return no events, and a fractional bound would compare as a real. Neither case is modelled; the client only sends an integer or nothing.
- BoardDatabase.ActiveSessionsSpec: `ORDER BY joined_at` is modelled on the joining instants. That matches sqlite's order on the stored ISO texts for years 0000–9999.

## Findings

| source | as written | input that shows it | evidently intended | confidence | as-written member | corrected member |
|---|---|---|---|---|---|---|
| api/src/database.ts:236 | `last_seen` holds ISO text (`2024-05-01T00:00:00.000Z`) and is compared as text with sqlite's `datetime('now','-5 minutes')` (`2024-05-01 11:55:00`). Because 'T' sorts after ' ', every session seen earlier the same day counts as active. `Database.GetActiveSessions` and `GET /:id/sessions` are modelled this way, with `AsText`. | A session last seen at 00:00, queried at 12:00 the same day | Sessions seen in the last five minutes, compared as times | not executed | BoardDatabase.StaleSessionCounterexample | BoardDatabase.ActiveSessionsSpec |
| api/src/database.ts:117-134 | The SET list is the joined assignments followed by `, updated_at = ?`. With no field to update it reads `SET , updated_at = ?`, a syntax error: `Database.UpdateBoard` returns an error and `BoardRoutes.PutBoard` answers 500. | `PUT /api/boards/:id` with body `{}` | An empty update only refreshes `updated_at` (`BoardDatabase.UpdatedRowEmpty`) | not executed | SqliteText.EmptyUpdateAsWritten | SqliteText.SetListSpec |
