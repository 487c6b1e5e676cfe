# Collaborative whiteboard: drawing-client state machine and relay routing

This project models the two pieces of logic in a small browser whiteboard.

- **The drawing client** (`Board` in `src/components/Visual.jsx`). It keeps a freehand point log, a brush (colour, size, eraser flag), a selected shape tool, and an undo/redo history of canvas snapshots with a current index. Module `Whiteboard` (whiteboard.dfy) gives that state as a record, `BoardState`. Each event handler is a function from the state before the event to the state after it, and what the handler paints comes back as a descriptor: a shape stamp, a line segment, or the snapshot chosen for repainting. Module `Canvas` (board.dfy) holds the component as the class `Board`. Its fields are updated in place by methods, and each method is proved to produce exactly the state and descriptor that the matching `Whiteboard` function gives.
- **The relay server** (`src/components/Server.js`). Module `Relay` (relay.dfy) gives the handlers as one routing function, `Route`. It maps the blob, the event, the sender and the connected clients to the new blob and the set of deliveries. The class `RelayServer` holds the module-level `canvasData` blob and runs a handler per call.

Properties proved:

- In every state reachable from the initial one, the history index stays within -1 .. |history| - 1. The index is -1 exactly when the history is empty.
- The eraser and a shape tool are never selected together.
- The point log only grows.
- Undo and redo move the index by one, each within its guard, and undo followed by redo (or redo followed by undo) returns to the same index.
- Clear empties the history and resets the index.
- A relayed drawing reaches every client except its sender.
- A clear reaches every client.
- The relay's blob is only ever the empty string, so `getCanvas` never sends anything.

**Recording a snapshot follows the code, not the comment beside it.** `handleMouseUp` first queues the history truncated after the current index (Visual.jsx:47-50). It then queues the old history with the new snapshot appended (:52). Both updates are computed from the history as it was before the event, so only the second takes effect. The net result: after an undo, a new stroke does not discard the redo tail. The snapshot goes after every old entry, and the index moves to it (:53). `Whiteboard.MouseUp` and `Canvas.Board.MouseUp` model this behaviour. `Whiteboard.RecordAfterUndoKeepsAbandoned` shows the consequence: after undo, draw, undo, the canvas is restored to the old last snapshot, not to the one before the undone position.

Socket.io delivery is an assumption of the model, not something it proves:

- `socket.broadcast.emit` reaches every connected client except the sender;
- `io.emit` reaches every connected client;
- `socket.emit` reaches the sender only.

The connected clients are a parameter of each handler.

## Model

| member | source | states |
|---|---|---|
| Whiteboard.ShapeOutline | src/components/Visual.jsx:101-134 | every stamp is centred on the pointer at fixed size 20: circle of radius 10, 20x20 square, 20x10 rectangle, triangle with apex above the pointer and base 20 below the apex |
| Whiteboard.MouseDownStamp | src/components/Visual.jsx:24-29 | a stamp is drawn exactly when a shape is selected; its outline is that shape's fixed-size outline (`Whiteboard.ShapeOutline`) centred on the pointer, stroked in the brush colour and size |
| Whiteboard.MouseDown | src/components/Visual.jsx:24-43 | with a shape selected the state is unchanged (no drawing starts, no point is logged); otherwise drawing starts at the pointer and exactly one point, carrying the current colour, size and eraser flag, is appended to the log |
| Whiteboard.MouseMoveSegment | src/components/Visual.jsx:56-78 | a segment is drawn exactly when drawing with no shape selected; it runs from the previous position to the pointer, in white at six times the brush size when erasing, else in the brush colour and size |
| Whiteboard.MouseMove | src/components/Visual.jsx:56-91 | a no-op unless drawing with no shape selected; then the pointer becomes the previous position and exactly one point is appended to the log; nothing else changes |
| Whiteboard.MouseUp | src/components/Visual.jsx:45-54 | drawing stops; the history grows by exactly one entry (the snapshot), the old entries are an unchanged prefix, and the index is the last position; nothing else changes |
| Whiteboard.Undo | src/components/Visual.jsx:166-179 | above 0 the index decreases by one, otherwise it is unchanged; the history is unchanged and the shape is deselected |
| Whiteboard.UndoRestore | src/components/Visual.jsx:166-177 | a snapshot is restored exactly when the index is above 0, and it is the history entry at the new index |
| Whiteboard.Redo | src/components/Visual.jsx:181-194 | below the last position the index increases by one, otherwise it is unchanged; the history is unchanged and the shape is deselected |
| Whiteboard.RedoRestore | src/components/Visual.jsx:181-192 | a snapshot is restored exactly when the index is below the last position, and it is the history entry at the new index |
| Whiteboard.Clear | src/components/Visual.jsx:157-164 | the history becomes empty, the index -1 and the shape deselected; brush, eraser flag and point log are kept |
| Whiteboard.BrushColorChange | src/components/Visual.jsx:140-144 | eraser off, no shape, colour set; nothing else changes |
| Whiteboard.BrushSizeChange | src/components/Visual.jsx:146-150 | eraser off, no shape, size set; nothing else changes |
| Whiteboard.Eraser | src/components/Visual.jsx:152-155 | eraser on, no shape; nothing else changes |
| Whiteboard.ShapeSelect | src/components/Visual.jsx:204-207 | eraser off, the given shape selected; nothing else changes |
| Whiteboard.StepPreservesValid | src/components/Visual.jsx:24-207 | every handler keeps the index in bounds, -1 only for an empty history, and eraser and shape exclusive |
| Whiteboard.RunPreservesValid | src/components/Visual.jsx:24-207 | any sequence of events keeps that invariant |
| Whiteboard.ReachableValid | src/components/Visual.jsx:10-13 | from the initial state (empty history, index -1, no eraser, no shape) every reachable state has -1 <= index <= length of history - 1, index -1 exactly when the history is empty, and never both eraser and shape |
| Whiteboard.RunExtendsLog | src/components/Visual.jsx:42 | the point log before any sequence of events is a prefix of the log after it |
| Whiteboard.UndoThenRedo | src/components/Visual.jsx:166-194 | from an index above 0, undo then redo returns to the same index over the same history and redo restores the snapshot current before the undo |
| Whiteboard.RedoThenUndo | src/components/Visual.jsx:166-194 | from below the last position, redo then undo returns to the same index and undo restores the snapshot current before the redo |
| Whiteboard.RecordAfterUndoKeepsAbandoned | src/components/Visual.jsx:45-54 | after an undo, mouse-up appends to the whole untruncated history and moves the index to the old length; a further undo restores the old last entry |
| Whiteboard.ClearDisablesHistory | src/components/Visual.jsx:157-194 | after clear, undo and redo restore nothing and leave the index at -1 |
| Canvas.Board.constructor | src/components/Visual.jsx:6-16 | the fields start at the hooks' initial values, which satisfy the invariant |
| Canvas.Board.MouseDown | src/components/Visual.jsx:24-43 | updates the fields to `Whiteboard.MouseDown` of the old state, returns the stamp, keeps the invariant |
| Canvas.Board.MouseUp | src/components/Visual.jsx:45-54 | runs both queued history updates; the result is `Whiteboard.MouseUp` of the old state, and the invariant is kept |
| Canvas.Board.MouseMove | src/components/Visual.jsx:56-91 | updates the fields to `Whiteboard.MouseMove` of the old state, returns the segment, keeps the invariant |
| Canvas.Board.BrushColorChange | src/components/Visual.jsx:140-144 | new state is `Whiteboard.BrushColorChange` of the old one; invariant kept |
| Canvas.Board.BrushSizeChange | src/components/Visual.jsx:146-150 | new state is `Whiteboard.BrushSizeChange` of the old one; invariant kept |
| Canvas.Board.Eraser | src/components/Visual.jsx:152-155 | new state is `Whiteboard.Eraser` of the old one; invariant kept |
| Canvas.Board.Clear | src/components/Visual.jsx:157-164 | new state is `Whiteboard.Clear` of the old one; invariant kept |
| Canvas.Board.Undo | src/components/Visual.jsx:166-179 | new state is `Whiteboard.Undo` of the old one, the returned snapshot is `Whiteboard.UndoRestore`; invariant kept |
| Canvas.Board.Redo | src/components/Visual.jsx:181-194 | new state is `Whiteboard.Redo` of the old one, the returned snapshot is `Whiteboard.RedoRestore`; invariant kept |
| Canvas.Board.ShapeSelect | src/components/Visual.jsx:204-207 | new state is `Whiteboard.ShapeSelect` of the old one; invariant kept |
| Relay.Route | src/components/Server.js:17-41 | draw: the payload, unchanged, goes to exactly the connected clients other than the sender, and the blob is unchanged. clearCanvas: the blob becomes "" and `canvasData` with "" goes to exactly the connected clients. getCanvas: something is sent exactly when the blob is non-empty, and only the blob to the requester. Connect and disconnect change nothing and send nothing |
| Relay.BlobStaysEmpty | src/components/Server.js:15-37 | starting from "", the blob is "" after any sequence of handled events |
| Relay.GetCanvasNeverSends | src/components/Server.js:33-37 | after any sequence of events from the start, getCanvas sends nothing |
| Relay.DrawNotEchoed | src/components/Server.js:21-24 | a draw is never delivered back to its sender and reaches every other connected client |
| Relay.ClearReachesSender | src/components/Server.js:27-30 | a connected sender of clearCanvas receives `canvasData` with "" itself |
| Relay.RelayServer.constructor | src/components/Server.js:15 | the blob starts empty |
| Relay.RelayServer.Handle | src/components/Server.js:21-41 | the new blob and the deliveries are those `Relay.Route` gives for the old blob; the blob stays "" |

## Left out

- Canvas rendering is not modelled: `getContext`, the path, arc, rect and stroke calls, `lineCap`, `clearRect`, `drawImage`, `toDataURL`. A snapshot is an opaque string passed to mouse-up. What is painted is returned as a descriptor.
- Repainting after undo and redo is not modelled. The source loads the image asynchronously (`Image.onload`, Visual.jsx:171-176 and 186-191), so overlapping loads can race. The model returns only the snapshot chosen for repainting.
- Whiteboard.ShapeOutline: the triangle's half base width, (sqrt 3 / 2) * 10, is irrational, so it is not modelled. The outline keeps only the apex and the y of the base.
- `handleResize` and its window listener are not modelled. They scale the canvas to window size in floating point (Visual.jsx:209-220).
- `handleSave` is not modelled; it downloads the bitmap through the DOM (Visual.jsx:196-202).
- The JSX markup and CSS are not modelled. The buttons' `disabled` attributes are not modelled either; undo and redo stay guarded inside the handlers.
- The brush size from the range input is a string in the source (Visual.jsx:242). The model takes it as an integer.
- Pointer coordinates are integers in the model.
- The `draw` payload is whatever value a client emits (Server.js:21-23). The model takes it as an opaque string, which it only forwards and never inspects.
- React batching is not modelled beyond the last-write-wins update in `handleMouseUp`. The model assumes one re-render between events, so every handler sees the state the previous one left.
- The relay's transport is not modelled: Express static serving, the HTTP listener, the `PORT` setting, socket.io and console logging (Server.js:1-13, 18, 40, 44-46). The delivery rules of the three emit forms are taken as given. Delivery order among recipients is left unspecified, so deliveries form a set.
- Relay.RelayServer.Handle requires the blob to be empty on entry. No handler ever assigns anything else, and the class invariant records that.
