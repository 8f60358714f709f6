# Collaborative whiteboard server: operation log and synchronisation protocol

This project models the server of a real-time collaborative whiteboard and proves
properties of that model.

- Clients draw line segments on a shared canvas and see each other's cursors.
- They share one global, linear undo/redo history.
- The server keeps that history, an operation log, in two sequences: `drawingHistory` (the committed line operations) and `redoStack`.
- It keeps a cursor registry, `userCursors`, from socket id to `{x, y, color}`.
- Its socket handlers apply each inbound event and emit `redraw`, `draw` or `cursorsUpdate` messages to chosen sets of clients.

Files and modules:

- `wrappers.dfy`, module `Wrappers`: `Option`, which stands for the `null` the log returns when there is nothing to undo or redo.
- `drawing_state.dfy`, module `DrawingState`: the operation log.
  - Pure step functions on `Log` values.
  - Lemmas about them: conservation, round trips, redo invalidation, idempotent clear.
  - The class `OperationLog`, whose two `seq` fields the methods overwrite in place. Each method is proved against its step function.
- `server.dfy`, module `Sync`: the socket handlers.
  - Each handler is a pure function from the old server state to the new state and the list of emits, in the order the code makes them.
  - An emit is a recipient set and a message.
  - Lemmas give the routing rules, the frame conditions and the lifecycle of cursor entries over any run of events.
  - The class `Coordinator` holds the connected-client set, the cursor map and the log, with one method per handler. Each method is proved against its handler function.
- `replicas.dfy`, module `Replicas`: what each connected client ends up showing.
  - A `redraw` replaces the canvas with the given history.
  - A `draw` appends one segment.
  - The sender of a line has already drawn it locally.
  - A `cursorsUpdate` replaces the cursor layer.
  - `InSync` states that every connected client shows exactly the server's history and cursor map. The lemmas prove which events keep it true.

Two behaviours of the code are easy to miss; the model follows the code:

- The new operation is built as `{ id: stamp, ...line }`. The spread comes after `id`, so a `draw` payload with its own `id` property keeps that id instead of the server's. So a client, not the server, can choose an operation's id. `Line` carries an optional `id`, and `AddLineStep` and `OperationLog.AddLine` state which id wins.
- `undo` and `redo` broadcast `newHistory || []`. A redo with an empty redo stack therefore sends the empty history to everyone, while the server keeps its history (see Findings). `HandleRedo` and `Coordinator.OnRedo` model this as written.

The event handlers require that the sender is connected, and `connect` requires a socket id that is not yet connected. The transport guarantees both.

## Model

| member | source | states |
|---|---|---|
| `DrawingState.AddLineStep` | server/drawing-state.js:6-14 | the new operation carries every field of the line; its id is the stamp unless the payload has its own `id`; the history gains exactly that operation at the end; the redo stack becomes empty |
| `DrawingState.UndoStep` | server/drawing-state.js:16-21 | returns `None` exactly when the history is empty, and the log is then unchanged; otherwise the last operation moves onto the redo stack and the shortened history is returned |
| `DrawingState.RedoStep` | server/drawing-state.js:23-28 | returns `None` exactly when the redo stack is empty, and the log is then unchanged; otherwise the top of the redo stack moves to the end of the history and the history is returned |
| `DrawingState.ClearStep` | server/drawing-state.js:30-34 | both sequences become empty and the returned history is the empty one |
| `DrawingState.UndoConserves` | server/drawing-state.js:16-21 | undo keeps `history ++ reverse(redoStack)` unchanged: no operation is lost or duplicated |
| `DrawingState.RedoConserves` | server/drawing-state.js:23-28 | redo keeps `history ++ reverse(redoStack)` unchanged |
| `DrawingState.UndoThenRedo` | server/drawing-state.js:16-28 | on a non-empty history, undo then redo returns the original history and restores both sequences exactly |
| `DrawingState.RedoThenUndo` | server/drawing-state.js:16-28 | on a non-empty redo stack, redo then undo restores both sequences exactly |
| `DrawingState.AddLineDiscardsRedo` | server/drawing-state.js:6-14 | after a new line, redo returns `None` and changes nothing; the previously undone operations are gone for good |
| `DrawingState.ClearIdempotent` | server/drawing-state.js:30-34 | clearing twice gives what clearing once gives |
| `DrawingState.UndoTimesTruncates` | server/drawing-state.js:16-21 | `k` undos (k at most the history length) leave all but the last `k` operations in commit order and lose no operation |
| `DrawingState.UndoRedoScenario` | server/drawing-state.js:6-28 | commit A, B, C; undo; undo; redo; commit D gives history [A, B, D], an empty redo stack, and C discarded |
| `DrawingState.OperationLog.constructor` | server/drawing-state.js:2-3 | both sequences start empty |
| `DrawingState.OperationLog.AddLine` | server/drawing-state.js:6-14 | appends the returned operation, which holds the line's fields and the decided id, and empties the redo stack; agrees with `AddLineStep` |
| `DrawingState.OperationLog.UndoOperation` | server/drawing-state.js:16-21 | `None` with nothing changed on an empty history; otherwise pops the last operation onto the redo stack and returns the new history; conserves operations; agrees with `UndoStep` |
| `DrawingState.OperationLog.RedoOperation` | server/drawing-state.js:23-28 | `None` with nothing changed on an empty redo stack; otherwise pushes the popped top onto the history and returns it; conserves operations; agrees with `RedoStep` |
| `DrawingState.OperationLog.ClearHistory` | server/drawing-state.js:30-34 | both fields become empty and the empty history is returned |
| `DrawingState.OperationLog.GetHistory` | server/drawing-state.js:36-38 | returns the current history and changes nothing |
| `Sync.HandleConnect` | server/server.js:20-25 | the newcomer alone receives `redraw` with the current history, then `cursorsUpdate` with the current map, in that order; only the client set changes; on a well-formed state the newcomer has no entry in the map it is sent |
| `Sync.HandleDraw` | server/server.js:28-32 | the line is committed through the log, and exactly one `draw` carrying the operation that now ends the history goes to every connected client except the sender; clients and cursors unchanged |
| `Sync.HandleCursorMove` | server/server.js:35-38 | the sender's entry becomes exactly `{x, y, color}` of the payload; every other entry stays; the whole map goes to all clients, the sender included; log unchanged |
| `Sync.HandleUndo` | server/server.js:41-44 | every client gets `redraw` with the history after undo, or the empty sequence when there was nothing to undo; cursors unchanged |
| `Sync.HandleRedo` | server/server.js:47-50 | every client gets `redraw` with the history after redo, or the empty sequence when there was nothing to redo, although the log is then unchanged |
| `Sync.HandleRedoCorrected` | server/server.js:47-50 | the corrected redo: every client gets the history after redo, whether or not there was anything to redo |
| `Sync.Handle` | server/server.js:20-63 | the dispatcher the code registers: the client set grows by the sender on connect, shrinks by it on disconnect and is otherwise unchanged; a connect emits two messages, every other event one |
| `Sync.HandleCorrected` | server/server.js:20-63 | the dispatcher with the corrected redo: the new state is always that of `Handle`, the emits differ only for redo, and a redo always broadcasts the history the server keeps |
| `Sync.HandleClear` | server/server.js:53-56 | the log becomes empty, and every client gets `redraw` with the empty sequence |
| `Sync.HandleDisconnect` | server/server.js:59-63 | the sender leaves the client set and its cursor entry is removed (a no-op if it never moved); other entries and the log are unchanged; the remaining clients get the new map |
| `Sync.HandlePreservesWf` | server/server.js:18-63 | every handler keeps the cursor registry within the connected clients |
| `Sync.HandleFrame` | server/server.js:28-63 | only `cursorMove` and disconnect change the cursor map; only `draw`, `undo`, `redo` and `clear` change the log; only connect and disconnect change the client set |
| `Sync.HandleRouting` | server/server.js:24-63 | a connect reaches only the newcomer; a `draw` reaches everyone but its sender; a disconnect reaches the remaining clients; every other event reaches all clients |
| `Sync.HandleCursorKeys` | server/server.js:28-63 | for every event, the registry's keys afterwards are the old keys, plus the sender after a `cursorMove`, minus the sender after a disconnect |
| `Sync.CursorLifecycle` | server/server.js:18-63 | over any admissible run of events, a client has a cursor entry exactly when it sent a `cursorMove` since connecting and has not disconnected since, and the entry is the `{x, y, color}` of its latest `cursorMove`; the registry stays within the connected clients |
| `Sync.TwoClientScenario` | server/server.js:28-63 | two clients connect and one draws: the registry is empty; the other moves: only it has an entry; the drawer disconnects: the mover's entry stays and the history still holds the line |
| `Sync.LateJoiner` | server/server.js:24-25 | a client that connects after `k` undos receives exactly the surviving operations in their original commit order, then the cursor map |
| `Sync.LateJoinerScenario` | server/server.js:24-25 | after five lines and two undos, a newcomer receives exactly the first three operations |
| `Sync.Coordinator.constructor` | server/server.js:18-20 | no clients, an empty cursor map and a fresh empty log |
| `Sync.Coordinator.OnConnect` | server/server.js:20-25 | adds the client and emits the history, then the cursor map, to it alone; agrees with `HandleConnect`; because the registry invariant `Valid` holds, the newcomer has no cursor entry |
| `Sync.Coordinator.OnDraw` | server/server.js:28-32 | commits one operation with the line's fields and emits it to all clients but the sender; agrees with `HandleDraw` |
| `Sync.Coordinator.OnCursorMove` | server/server.js:35-38 | overwrites only the sender's entry and emits the map to all clients; agrees with `HandleCursorMove` |
| `Sync.Coordinator.OnUndo` | server/server.js:41-44 | undoes on the log and emits the new history, or the empty sequence, to all clients; agrees with `HandleUndo` |
| `Sync.Coordinator.OnRedo` | server/server.js:47-50 | redoes on the log and emits the new history, or the empty sequence, to all clients; agrees with `HandleRedo` |
| `Sync.Coordinator.OnClear` | server/server.js:53-56 | empties the log and emits the empty history to all clients; agrees with `HandleClear` |
| `Sync.Coordinator.OnDisconnect` | server/server.js:59-63 | removes the client and its cursor entry and emits the map to the clients that remain; agrees with `HandleDisconnect` |
| `Replicas.Picture` | collaborative-canvas/canvas.js:68-72 | replaying a history draws one segment per operation, the segment of operation `i` in position `i` |
| `Replicas.Apply` | collaborative-canvas/websocket.js:17-30 | a `redraw` replaces the canvas by the replay of its history, a `draw` adds its segment on top, a `cursorsUpdate` replaces the cursor layer; each leaves the other layer alone |
| `Replicas.Observe` | collaborative-canvas/canvas.js:138-139 | the set of clients with a view grows by the newcomer on connect, shrinks by the leaver on disconnect and is otherwise unchanged; the sender of a `draw` has drawn its own line before the emits arrive |
| `Replicas.HandleKeepsInSync` | server/server.js:24-63 | if every client showed the server's history and cursors, every event keeps that true, the newcomer included, except a redo with an empty redo stack while the history is non-empty (a redo on a fully empty log stays in sync, since the empty broadcast equals the history) |
| `Replicas.RedoWipesReplicas` | server/server.js:47-50 | as written, a redo with an empty redo stack and a non-empty history leaves the log unchanged but blanks every client's canvas, so clients and server disagree |
| `Replicas.DrawThenRedoScenario` | server/server.js:28-50 | one client connects, draws a line (everyone is in sync) and presses redo: the server still holds the line, and the client's canvas is empty |
| `Replicas.CorrectedKeepsInSync` | server/server.js:24-63 | with the corrected redo, every event keeps every client in sync |
| `Replicas.RunKeepsInSync` | server/server.js:20-64 | with the corrected redo, any admissible sequence of events handled in arrival order keeps every connected client showing the server's history and cursors |

## Findings

| source | as written | input that shows it | evidently intended | confidence | as-written member | corrected member |
|---|---|---|---|---|---|---|
| server/server.js:47-50 | the `redraw` broadcast falls back to the empty array: when `redoOperation` returns `null` (empty redo stack), every client is told that the history is empty | a client connects, draws one line, then sends `redo`: the server keeps the line, and every client's canvas is cleared | broadcast the current, unchanged history (or nothing) when there is nothing to redo | high for the input shown; not executed | `Replicas.RedoWipesReplicas` | `Sync.HandleRedoCorrected` |

The same fallback in `undo` (server/server.js:41-44) does no harm. `undoOperation` returns `null` only when the history is empty, so the empty broadcast equals the history. `Replicas.HandleKeepsInSync` covers this case. The `Coordinator` class follows the code as written. The system-level theorem `Replicas.RunKeepsInSync` is stated for the corrected redo.

## Left out

- HTTP and static hosting are left out: the Express app, the HTTP server, `server.listen`, `PORT` and every `console.log` (server/server.js:2-16, 21, 60, 66-68). They are I/O plumbing.
- socket.io transport mechanics are left out: delivery, acknowledgement, backpressure, reconnection. Emits are abstract `(recipient set, message)` values.
- The transport's socket set is modelled as the coordinator's `clients` field. Connect adds the socket and disconnect removes it before the `disconnect` handler emits.
- Concurrency is left out. Node's single event loop runs each handler to completion, so the model handles events one at a time in arrival order.
- Id generation `new Date().getTime() + Math.random()` (server/drawing-state.js:8) is left out because it uses the clock and randomness. The id's value is a parameter (`stamp`) of `AddLine` and of the `Draw` event. No uniqueness is claimed, because the code does not guarantee it.
- Coordinates, colours and widths are copied and never computed with. They are modelled as `real` and `string` fields, with no floating-point behaviour.
- A payload can carry properties beyond the six line fields and `id`. The spread would copy them into the operation; the model does not carry them. `cursorMove` copies exactly `x`, `y` and `color`, and the model does the same.
- Malformed payloads are left out: a `cursorMove` without data would make the code throw. The model's payloads always have the fields the handlers read.
- Aliasing is left out. `getHistory`, `undoOperation` and `redoOperation` return the shared array itself, and emits serialise it at once. The model returns the sequence's value, so later in-place changes cannot show through an earlier result.
- The browser client's rendering, DOM wiring and pointer handling (collaborative-canvas/canvas.js, main.js, websocket.js) are left out. `Replicas` only abstracts its reaction to the three inbound messages and its drawing of its own line before sending it.
- `Replicas.Observe`, `Replicas.CorrectedKeepsInSync` and `Replicas.RunKeepsInSync` rest on two timing assumptions. First, every emit of one event is delivered before the next event reaches the server. Second, a sender's line lands on its own canvas when the server commits it, whereas the client draws it when it sends it (collaborative-canvas/canvas.js:138-139). A run the theorems do not cover: client A draws line `a` locally; B's `undo` reaches the server first, and the server sends `redraw` of the shortened history to everyone (server/server.js:42-43); then A's `draw` arrives, the server commits the shortened history plus `a` and sends `a` to everyone but A (server/server.js:29-31); A applies the `redraw` (collaborative-canvas/websocket.js:22-24) and never gets `a` back, so A's canvas lacks a line the server holds. `Replica.lines` stands for the pixels on the main canvas, not the client's `currentHistory`: an inbound `draw` (collaborative-canvas/websocket.js:17-19) never updates `currentHistory`, so a window resize (collaborative-canvas/canvas.js:26-29) replays a stale history, and that is not modelled either.
- `Line.id` covers only a numeric client-supplied `id`, or none. The spread copies a payload `id` of any JSON type (a string, `null`, an object), and that value would also replace the server's stamp; those ids are not modelled.
