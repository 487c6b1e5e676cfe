/** The drawing client component (src/components/Visual.jsx) as an object
    whose handlers update its state fields in place. Each handler is proved
    to produce exactly the state, and paint exactly the descriptor, that the
    matching function of `Whiteboard` gives, and to keep `Whiteboard.Valid`.
 */
module Canvas {

  import W = Whiteboard

  class Board {
    var isDrawing: bool
    var prevPosition: W.Position
    var brushColor: string
    var brushSize: int
    var isErasing: bool
    var canvasHistory: seq<W.Snapshot>
    var canvasHistoryIndex: int
    var selectedShape: W.Option<W.Shape>
    var drawingData: seq<W.DrawPoint>

    /** The component's state as a value. */
    function State(): W.BoardState
      reads this
    {
      W.BoardState(isDrawing, prevPosition, brushColor, brushSize, isErasing,
                   canvasHistory, canvasHistoryIndex, selectedShape, drawingData)
    }

    ghost predicate Valid()
      reads this
    {
      W.Valid(State())
    }

    /** The hooks' initial values. */
    constructor ()
      ensures Valid() && State() == W.Initial
    {
      isDrawing := false;
      prevPosition := W.Position(0, 0);
      brushColor := "black";
      brushSize := 2;
      isErasing := false;
      canvasHistory := [];
      canvasHistoryIndex := -1;
      selectedShape := W.None;
      drawingData := [];
    }

    /** handleMouseDown; `stamp` is the shape drawn when a shape tool is on. */
    method MouseDown(pos: W.Position) returns (stamp: W.Option<W.Stamp>)
      requires Valid()
      modifies this
      ensures Valid()
      ensures State() == W.MouseDown(old(State()), pos)
      ensures stamp == W.MouseDownStamp(old(State()), pos)
    {
      if selectedShape.Some? {
        stamp := W.Some(W.Stamp(W.ShapeOutline(selectedShape.value, pos), brushColor, brushSize));
        return;
      }
      stamp := W.None;
      isDrawing := true;
      prevPosition := pos;
      var dataPoint := W.DrawPoint(pos.x, pos.y, brushColor, brushSize, isErasing);
      drawingData := drawingData + [dataPoint];
    }

    /** handleMouseUp. The truncation queued when the index is not at the
        last entry is superseded by the append queued after it, which reads
        the same pre-event history; only the last queued value takes effect. */
    method MouseUp(snapshot: W.Snapshot)
      requires Valid()
      modifies this
      ensures Valid()
      ensures State() == W.MouseUp(old(State()), snapshot)
    {
      isDrawing := false;
      var queuedHistory := canvasHistory;
      if canvasHistoryIndex != |canvasHistory| - 1 {
        queuedHistory := canvasHistory[..canvasHistoryIndex + 1];
      }
      queuedHistory := canvasHistory + [snapshot];
      var queuedIndex := |canvasHistory|;
      canvasHistory := queuedHistory;
      canvasHistoryIndex := queuedIndex;
    }

    /** handleMouseMove; `segment` is the line drawn, if any. */
    method MouseMove(pos: W.Position) returns (segment: W.Option<W.Segment>)
      requires Valid()
      modifies this
      ensures Valid()
      ensures State() == W.MouseMove(old(State()), pos)
      ensures segment == W.MouseMoveSegment(old(State()), pos)
    {
      segment := W.None;
      if !isDrawing {
        return;
      }
      if selectedShape.Some? {
        return;
      }
      var color, lineWidth;
      if isErasing {
        color, lineWidth := W.EraserColor, brushSize * W.EraserWidthFactor;
      } else {
        color, lineWidth := brushColor, brushSize;
      }
      segment := W.Some(W.Segment(prevPosition, pos, color, lineWidth));
      prevPosition := pos;
      var dataPoint := W.DrawPoint(pos.x, pos.y, brushColor, brushSize, isErasing);
      drawingData := drawingData + [dataPoint];
    }

    /** handleBrushColorChange. */
    method BrushColorChange(color: string)
      requires Valid()
      modifies this
      ensures Valid()
      ensures State() == W.BrushColorChange(old(State()), color)
    {
      isErasing := false;
      selectedShape := W.None;
      brushColor := color;
    }

    /** handleBrushSizeChange. */
    method BrushSizeChange(size: int)
      requires Valid()
      modifies this
      ensures Valid()
      ensures State() == W.BrushSizeChange(old(State()), size)
    {
      isErasing := false;
      selectedShape := W.None;
      brushSize := size;
    }

    /** handleEraser. */
    method Eraser()
      requires Valid()
      modifies this
      ensures Valid()
      ensures State() == W.Eraser(old(State()))
    {
      selectedShape := W.None;
      isErasing := true;
    }

    /** handleClear. */
    method Clear()
      requires Valid()
      modifies this
      ensures Valid()
      ensures State() == W.Clear(old(State()))
    {
      canvasHistory := [];
      canvasHistoryIndex := -1;
      selectedShape := W.None;
    }

    /** handleUndo; `restore` is the snapshot loaded to repaint the canvas. */
    method Undo() returns (restore: W.Option<W.Snapshot>)
      requires Valid()
      modifies this
      ensures Valid()
      ensures State() == W.Undo(old(State()))
      ensures restore == W.UndoRestore(old(State()))
    {
      restore := W.None;
      if canvasHistoryIndex > 0 {
        restore := W.Some(canvasHistory[canvasHistoryIndex - 1]);
        canvasHistoryIndex := canvasHistoryIndex - 1;
      }
      selectedShape := W.None;
    }

    /** handleRedo; `restore` is the snapshot loaded to repaint the canvas. */
    method Redo() returns (restore: W.Option<W.Snapshot>)
      requires Valid()
      modifies this
      ensures Valid()
      ensures State() == W.Redo(old(State()))
      ensures restore == W.RedoRestore(old(State()))
    {
      restore := W.None;
      if canvasHistoryIndex < |canvasHistory| - 1 {
        restore := W.Some(canvasHistory[canvasHistoryIndex + 1]);
        canvasHistoryIndex := canvasHistoryIndex + 1;
      }
      selectedShape := W.None;
    }

    /** handleShapeSelect. */
    method ShapeSelect(shape: W.Shape)
      requires Valid()
      modifies this
      ensures Valid()
      ensures State() == W.ShapeSelect(old(State()), shape)
    {
      isErasing := false;
      selectedShape := W.Some(shape);
    }
  }
}
