/** The drawing client's state and the transitions its event handlers make
    (src/components/Visual.jsx), as values.

    The React component `Board` keeps its state in `useState` hooks; here that
    state is one record, `BoardState`, and each handler is a function from the
    state before the event to the state after it (one re-render between
    events). What a handler paints on the canvas is returned as a descriptor
    (a shape stamp, a line segment, the snapshot chosen for restoring); the
    painting itself is not modelled. The class `Canvas.Board` runs the same
    handlers by updating fields in place and is proved against these functions.
 */
module Whiteboard {

  datatype Option<T> = None | Some(value: T)

  /** An encoded canvas bitmap (the data URL from `toDataURL`), opaque here. */
  type Snapshot = string

  datatype Shape = Circle | Square | Triangle | Rectangle

  /** A pointer position in canvas pixels (`offsetX`, `offsetY`). */
  datatype Position = Position(x: int, y: int)

  /** One sampled pointer position with the brush state at capture time. */
  datatype DrawPoint = DrawPoint(x: int, y: int, color: string, size: int, isErasing: bool)

  datatype BoardState = BoardState(
    isDrawing: bool,
    prevPosition: Position,
    brushColor: string,
    brushSize: int,
    isErasing: bool,
    canvasHistory: seq<Snapshot>,
    canvasHistoryIndex: int,
    selectedShape: Option<Shape>,
    drawingData: seq<DrawPoint>)

  /** The initial values of the component's hooks. */
  const Initial: BoardState :=
    BoardState(false, Position(0, 0), "black", 2, false, [], -1, None, [])

  /** Every shape is stamped at this nominal size, whatever the brush size. */
  const FixedSize: int := 20

  /** Stroke colour and width of the eraser: white, six times the brush size. */
  const EraserColor: string := "white"
  const EraserWidthFactor: int := 6

  // ---------------------------------------------------------------------------
  // Invariants

  /** The history index names an entry of the history or is the sentinel -1. */
  predicate IndexInBounds(b: BoardState)
  {
    -1 <= b.canvasHistoryIndex <= |b.canvasHistory| - 1
  }

  /** The eraser and a shape tool are never selected together. */
  predicate ToolsExclusive(b: BoardState)
  {
    !(b.isErasing && b.selectedShape.Some?)
  }

  /** The state invariant: index in bounds, -1 exactly when the history is
      empty (the "empty canvas" sentinel), and exclusive tools. */
  predicate Valid(b: BoardState)
  {
    IndexInBounds(b) &&
    (b.canvasHistoryIndex == -1 <==> b.canvasHistory == []) &&
    ToolsExclusive(b)
  }

  // ---------------------------------------------------------------------------
  // Shape stamping (drawShape)

  /** The outline a shape tool strokes. The triangle keeps only its integer
      parts: the apex and the y of its base. */
  datatype Outline =
    | Arc(center: Position, radius: int)
    | Rect(left: int, top: int, width: int, height: int)
    | TriangleOutline(apex: Position, baseY: int)

  /** A stroked outline with the stroke style in force. */
  datatype Stamp = Stamp(outline: Outline, color: string, lineWidth: int)

  /** The centre of an outline: of its circle, or of its bounding box. */
  function CenterOf(o: Outline): Position
  {
    match o
    case Arc(c, _) => c
    case Rect(l, t, w, h) => Position(l + w / 2, t + h / 2)
    case TriangleOutline(a, baseY) => Position(a.x, (a.y + baseY) / 2)
  }

  /** The outline of `shape` stamped at `pos` (drawShape, integer cases). */
  function ShapeOutline(shape: Shape, pos: Position): (o: Outline)
    ensures CenterOf(o) == pos
    ensures shape == Circle ==> o.Arc? && 2 * o.radius == FixedSize
    ensures shape == Square ==> o.Rect? && o.width == FixedSize && o.height == FixedSize
    ensures shape == Rectangle ==> o.Rect? && o.width == FixedSize && 2 * o.height == FixedSize
    ensures shape == Triangle ==> o.TriangleOutline? && o.apex.x == pos.x && o.baseY - o.apex.y == FixedSize
  {
    match shape
    case Circle => Arc(pos, FixedSize / 2)
    case Square => Rect(pos.x - FixedSize / 2, pos.y - FixedSize / 2, FixedSize, FixedSize)
    case Triangle => TriangleOutline(Position(pos.x, pos.y - FixedSize / 2), pos.y + FixedSize / 2)
    case Rectangle => Rect(pos.x - FixedSize / 2, pos.y - (FixedSize / 2) / 2, FixedSize, FixedSize / 2)
  }

  // ---------------------------------------------------------------------------
  // Pointer handlers

  /** The point recorded for `pos` under the current brush. */
  function PointAt(b: BoardState, pos: Position): DrawPoint
  {
    DrawPoint(pos.x, pos.y, b.brushColor, b.brushSize, b.isErasing)
  }

  /** handleMouseDown: with a shape selected only a stamp is drawn; otherwise
      a stroke starts at `pos` and its first point is logged. */
  function MouseDown(b: BoardState, pos: Position): (r: BoardState)
    ensures b.selectedShape.Some? ==> r == b
    ensures b.selectedShape.None? ==>
      r.isDrawing && r.prevPosition == pos &&
      |r.drawingData| == |b.drawingData| + 1 &&
      r.drawingData[..|b.drawingData|] == b.drawingData &&
      r.drawingData[|b.drawingData|] == DrawPoint(pos.x, pos.y, b.brushColor, b.brushSize, b.isErasing) &&
      r.(isDrawing := b.isDrawing, prevPosition := b.prevPosition, drawingData := b.drawingData) == b
  {
    if b.selectedShape.Some? then b
    else b.(isDrawing := true, prevPosition := pos, drawingData := b.drawingData + [PointAt(b, pos)])
  }

  /** What handleMouseDown paints: a stamp of the selected shape, in the
      brush colour and size, centred on the pointer. */
  function MouseDownStamp(b: BoardState, pos: Position): (r: Option<Stamp>)
    ensures r.Some? <==> b.selectedShape.Some?
    ensures r.Some? ==> r.value.outline == ShapeOutline(b.selectedShape.value, pos)
    ensures r.Some? ==>
      CenterOf(r.value.outline) == pos &&
      r.value.color == b.brushColor && r.value.lineWidth == b.brushSize
  {
    match b.selectedShape
    case None => None
    case Some(shape) => Some(Stamp(ShapeOutline(shape, pos), b.brushColor, b.brushSize))
  }

  /** A freehand line segment and its stroke style. */
  datatype Segment = Segment(from: Position, to: Position, color: string, lineWidth: int)

  /** True when a pointer move continues a freehand stroke. */
  predicate Sketching(b: BoardState)
  {
    b.isDrawing && b.selectedShape.None?
  }

  /** handleMouseMove: outside a freehand stroke nothing changes; inside one
      the pointer position becomes the previous position and a point is logged. */
  function MouseMove(b: BoardState, pos: Position): (r: BoardState)
    ensures !Sketching(b) ==> r == b
    ensures Sketching(b) ==>
      r.prevPosition == pos &&
      |r.drawingData| == |b.drawingData| + 1 &&
      r.drawingData[..|b.drawingData|] == b.drawingData &&
      r.drawingData[|b.drawingData|] == DrawPoint(pos.x, pos.y, b.brushColor, b.brushSize, b.isErasing) &&
      r.(prevPosition := b.prevPosition, drawingData := b.drawingData) == b
  {
    if !b.isDrawing then b
    else if b.selectedShape.Some? then b
    else b.(prevPosition := pos, drawingData := b.drawingData + [PointAt(b, pos)])
  }

  /** What handleMouseMove paints: the segment from the previous position to
      the pointer, white and six times wider when erasing. */
  function MouseMoveSegment(b: BoardState, pos: Position): (r: Option<Segment>)
    ensures r.Some? <==> Sketching(b)
    ensures r.Some? ==> r.value.from == b.prevPosition && r.value.to == pos
    ensures r.Some? && b.isErasing ==>
      r.value.color == EraserColor && r.value.lineWidth == EraserWidthFactor * b.brushSize
    ensures r.Some? && !b.isErasing ==>
      r.value.color == b.brushColor && r.value.lineWidth == b.brushSize
  {
    if !b.isDrawing || b.selectedShape.Some? then None
    else if b.isErasing then Some(Segment(b.prevPosition, pos, EraserColor, b.brushSize * EraserWidthFactor))
    else Some(Segment(b.prevPosition, pos, b.brushColor, b.brushSize))
  }

  /** handleMouseUp as the code behaves: the queued truncation of the redo
      tail is overwritten by the later append, so `snapshot` is appended to
      the whole history and the index moves to it. */
  function MouseUp(b: BoardState, snapshot: Snapshot): (r: BoardState)
    ensures !r.isDrawing
    ensures |r.canvasHistory| == |b.canvasHistory| + 1
    ensures r.canvasHistory[..|b.canvasHistory|] == b.canvasHistory
    ensures r.canvasHistory[|b.canvasHistory|] == snapshot
    ensures r.canvasHistoryIndex == |r.canvasHistory| - 1
    ensures r.(isDrawing := b.isDrawing, canvasHistory := b.canvasHistory,
               canvasHistoryIndex := b.canvasHistoryIndex) == b
  {
    b.(isDrawing := false,
       canvasHistory := b.canvasHistory + [snapshot],
       canvasHistoryIndex := |b.canvasHistory|)
  }

  // ---------------------------------------------------------------------------
  // History buttons

  /** handleUndo: steps the index back when it is above 0, and always
      deselects the shape. */
  function Undo(b: BoardState): (r: BoardState)
    ensures b.canvasHistoryIndex > 0 ==> r.canvasHistoryIndex == b.canvasHistoryIndex - 1
    ensures b.canvasHistoryIndex <= 0 ==> r.canvasHistoryIndex == b.canvasHistoryIndex
    ensures r.canvasHistory == b.canvasHistory && r.selectedShape == None
    ensures r.(canvasHistoryIndex := b.canvasHistoryIndex, selectedShape := b.selectedShape) == b
  {
    var index := if b.canvasHistoryIndex > 0 then b.canvasHistoryIndex - 1 else b.canvasHistoryIndex;
    b.(canvasHistoryIndex := index, selectedShape := None)
  }

  /** The snapshot handleUndo loads to repaint the canvas, if any: the one at
      the new index. */
  function UndoRestore(b: BoardState): (r: Option<Snapshot>)
    requires Valid(b)
    ensures r.Some? <==> b.canvasHistoryIndex > 0
    ensures r.Some? ==> 0 <= Undo(b).canvasHistoryIndex && r.value == b.canvasHistory[Undo(b).canvasHistoryIndex]
  {
    if b.canvasHistoryIndex > 0 then Some(b.canvasHistory[b.canvasHistoryIndex - 1]) else None
  }

  /** handleRedo: steps the index forward when it is below the last position,
      and always deselects the shape. */
  function Redo(b: BoardState): (r: BoardState)
    ensures b.canvasHistoryIndex < |b.canvasHistory| - 1 ==> r.canvasHistoryIndex == b.canvasHistoryIndex + 1
    ensures b.canvasHistoryIndex >= |b.canvasHistory| - 1 ==> r.canvasHistoryIndex == b.canvasHistoryIndex
    ensures r.canvasHistory == b.canvasHistory && r.selectedShape == None
    ensures r.(canvasHistoryIndex := b.canvasHistoryIndex, selectedShape := b.selectedShape) == b
  {
    var index := if b.canvasHistoryIndex < |b.canvasHistory| - 1 then b.canvasHistoryIndex + 1 else b.canvasHistoryIndex;
    b.(canvasHistoryIndex := index, selectedShape := None)
  }

  /** The snapshot handleRedo loads to repaint the canvas, if any: the one at
      the new index. */
  function RedoRestore(b: BoardState): (r: Option<Snapshot>)
    requires Valid(b)
    ensures r.Some? <==> b.canvasHistoryIndex < |b.canvasHistory| - 1
    ensures r.Some? ==> 0 <= Redo(b).canvasHistoryIndex && r.value == b.canvasHistory[Redo(b).canvasHistoryIndex]
  {
    if b.canvasHistoryIndex < |b.canvasHistory| - 1 then Some(b.canvasHistory[b.canvasHistoryIndex + 1]) else None
  }

  /** handleClear: empties the history, resets the index to the empty-canvas
      sentinel and deselects the shape; the brush, the eraser flag and the
      point log are kept. */
  function Clear(b: BoardState): (r: BoardState)
    ensures r.canvasHistory == [] && r.canvasHistoryIndex == -1 && r.selectedShape == None
    ensures r.(canvasHistory := b.canvasHistory, canvasHistoryIndex := b.canvasHistoryIndex,
               selectedShape := b.selectedShape) == b
  {
    b.(canvasHistory := [], canvasHistoryIndex := -1, selectedShape := None)
  }

  // ---------------------------------------------------------------------------
  // Tool selection

  /** handleBrushColorChange: cancels eraser and shape, sets the colour. */
  function BrushColorChange(b: BoardState, color: string): (r: BoardState)
    ensures !r.isErasing && r.selectedShape == None && r.brushColor == color
    ensures r.(isErasing := b.isErasing, selectedShape := b.selectedShape, brushColor := b.brushColor) == b
  {
    b.(isErasing := false, selectedShape := None, brushColor := color)
  }

  /** handleBrushSizeChange: cancels eraser and shape, sets the size. */
  function BrushSizeChange(b: BoardState, size: int): (r: BoardState)
    ensures !r.isErasing && r.selectedShape == None && r.brushSize == size
    ensures r.(isErasing := b.isErasing, selectedShape := b.selectedShape, brushSize := b.brushSize) == b
  {
    b.(isErasing := false, selectedShape := None, brushSize := size)
  }

  /** handleEraser: deselects the shape and turns the eraser on. */
  function Eraser(b: BoardState): (r: BoardState)
    ensures r.isErasing && r.selectedShape == None
    ensures r.(isErasing := b.isErasing, selectedShape := b.selectedShape) == b
  {
    b.(selectedShape := None, isErasing := true)
  }

  /** handleShapeSelect: turns the eraser off and selects `shape`. */
  function ShapeSelect(b: BoardState, shape: Shape): (r: BoardState)
    ensures !r.isErasing && r.selectedShape == Some(shape)
    ensures r.(isErasing := b.isErasing, selectedShape := b.selectedShape) == b
  {
    b.(isErasing := false, selectedShape := Some(shape))
  }

  // ---------------------------------------------------------------------------
  // Event sequences

  /** The user events the component handles; a mouse-up carries the bitmap
      the canvas held at that moment. */
  datatype Input =
    | PointerDown(pos: Position)
    | PointerMove(pos: Position)
    | PointerUp(snapshot: Snapshot)
    | UndoPressed
    | RedoPressed
    | ClearPressed
    | ColorChosen(color: string)
    | SizeChosen(size: int)
    | EraserPressed
    | ShapeChosen(shape: Shape)

  function Step(b: BoardState, input: Input): BoardState
  {
    match input
    case PointerDown(pos) => MouseDown(b, pos)
    case PointerMove(pos) => MouseMove(b, pos)
    case PointerUp(snapshot) => MouseUp(b, snapshot)
    case UndoPressed => Undo(b)
    case RedoPressed => Redo(b)
    case ClearPressed => Clear(b)
    case ColorChosen(color) => BrushColorChange(b, color)
    case SizeChosen(size) => BrushSizeChange(b, size)
    case EraserPressed => Eraser(b)
    case ShapeChosen(shape) => ShapeSelect(b, shape)
  }

  /** The state after handling `inputs` in order, starting from `b`. */
  function Run(b: BoardState, inputs: seq<Input>): BoardState
    decreases |inputs|
  {
    if inputs == [] then b else Run(Step(b, inputs[0]), inputs[1..])
  }

  // ---------------------------------------------------------------------------
  // Properties

  /** Every handler keeps the state invariant. */
  lemma StepPreservesValid(b: BoardState, input: Input)
    requires Valid(b)
    ensures Valid(Step(b, input))
  {
  }

  /** Any sequence of events keeps the state invariant. */
  lemma {:induction false} RunPreservesValid(b: BoardState, inputs: seq<Input>)
    requires Valid(b)
    ensures Valid(Run(b, inputs))
    decreases |inputs|
  {
    if inputs != [] {
      StepPreservesValid(b, inputs[0]);
      RunPreservesValid(Step(b, inputs[0]), inputs[1..]);
    }
  }

  /** In every state reachable from the initial one the history index is
      within -1 .. |history| - 1, it is -1 exactly when the history is empty,
      and the eraser and a shape are never both selected. */
  lemma ReachableValid(inputs: seq<Input>)
    ensures Valid(Run(Initial, inputs))
    ensures IndexInBounds(Run(Initial, inputs))
    ensures (Run(Initial, inputs).canvasHistoryIndex == -1 <==> Run(Initial, inputs).canvasHistory == [])
    ensures ToolsExclusive(Run(Initial, inputs))
  {
    RunPreservesValid(Initial, inputs);
  }

  /** The point log only grows: the log before a sequence of events is a
      prefix of the log after it. */
  lemma {:induction false} RunExtendsLog(b: BoardState, inputs: seq<Input>)
    ensures b.drawingData <= Run(b, inputs).drawingData
    decreases |inputs|
  {
    if inputs != [] {
      var next := Step(b, inputs[0]);
      assert b.drawingData <= next.drawingData;
      RunExtendsLog(next, inputs[1..]);
    }
  }

  /** Undo from an index above 0 followed by redo returns to the same index
      over the same history, and redo restores the snapshot that was current
      before the undo. */
  lemma UndoThenRedo(b: BoardState)
    requires Valid(b) && b.canvasHistoryIndex > 0
    ensures Redo(Undo(b)).canvasHistory == b.canvasHistory
    ensures Redo(Undo(b)).canvasHistoryIndex == b.canvasHistoryIndex
    ensures RedoRestore(Undo(b)) == Some(b.canvasHistory[b.canvasHistoryIndex])
  {
  }

  /** Redo from below the last index followed by undo returns to the same
      index, and undo restores the snapshot current before the redo. */
  lemma RedoThenUndo(b: BoardState)
    requires Valid(b) && b.canvasHistoryIndex < |b.canvasHistory| - 1
    ensures Undo(Redo(b)).canvasHistory == b.canvasHistory
    ensures Undo(Redo(b)).canvasHistoryIndex == b.canvasHistoryIndex
    ensures UndoRestore(Redo(b)) == Some(b.canvasHistory[b.canvasHistoryIndex])
  {
  }

  /** Drawing after an undo does not discard the redo tail: the new snapshot
      goes after every old entry, so a following undo restores the old last
      entry rather than the one before the undone position. */
  lemma RecordAfterUndoKeepsAbandoned(b: BoardState, snapshot: Snapshot)
    requires Valid(b) && b.canvasHistoryIndex > 0
    ensures MouseUp(Undo(b), snapshot).canvasHistory == b.canvasHistory + [snapshot]
    ensures MouseUp(Undo(b), snapshot).canvasHistoryIndex == |b.canvasHistory|
    ensures UndoRestore(MouseUp(Undo(b), snapshot)) == Some(b.canvasHistory[|b.canvasHistory| - 1])
  {
  }

  /** Once cleared, undo and redo have nothing to restore until the next
      mouse-up records a snapshot. */
  lemma ClearDisablesHistory(b: BoardState)
    requires Valid(b)
    ensures UndoRestore(Clear(b)) == None && RedoRestore(Clear(b)) == None
    ensures Undo(Clear(b)).canvasHistoryIndex == -1 && Redo(Clear(b)).canvasHistoryIndex == -1
  {
  }
}
