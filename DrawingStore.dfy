/** Annotation drawing over the canvas: freehand paths and shapes, drawn by
    a start / continue / end gesture. */
module DrawingStore {
  import opened Base
  import opened Circuit
  import opened Sequences

  datatype DrawingTool = Pencil | Highlighter | Eraser | Line | Arrow | Rectangle | Circle | Select

  predicate Freehand(t: DrawingTool) {
    t == Pencil || t == Highlighter || t == Eraser
  }

  predicate ShapeTool(t: DrawingTool) {
    t == Line || t == Arrow || t == Rectangle || t == Circle
  }

  datatype DrawingPath = DrawingPath(
    id: string, tool: DrawingTool, points: seq<Point>, color: string, width: real, opacity: real)

  /** `fill` is optional: shapes added from outside may lack it. */
  datatype DrawingShape = DrawingShape(
    id: string, tool: DrawingTool, start: Point, end: Point,
    color: string, width: real, opacity: real, fill: Option<bool>)

  const EraserColor := "#ffffff"
  const HighlighterOpacity: real := 0.3

  /** The path a freehand gesture starts with `tool`; the eraser paints
      opaque white and the highlighter is twice as wide and translucent. */
  function NewPath(id: string, tool: DrawingTool, p: Point, color: string, width: real, opacity: real): (r: DrawingPath)
    requires Freehand(tool)
    ensures r.id == id && r.tool == tool && r.points == [p]
    ensures tool == Eraser ==> r.color == EraserColor && r.width == width && r.opacity == 1.0
    ensures tool == Highlighter ==> r.color == color && r.width == 2.0 * width && r.opacity == HighlighterOpacity
    ensures tool == Pencil ==> r.color == color && r.width == width && r.opacity == opacity
  {
    DrawingPath(id, tool, [p],
      if tool == Eraser then EraserColor else color,
      if tool == Highlighter then width * 2.0 else width,
      if tool == Highlighter then HighlighterOpacity else if tool == Eraser then 1.0 else opacity)
  }

  predicate OtherPath(id: string, p: DrawingPath) {
    p.id != id
  }

  predicate OtherShape(id: string, s: DrawingShape) {
    s.id != id
  }

  class Store {
    var drawingTool: DrawingTool
    var drawingColor: string
    var drawingWidth: real
    var drawingOpacity: real
    var fillShapes: bool
    var paths: seq<DrawingPath>
    var shapes: seq<DrawingShape>
    var isDrawing: bool
    var currentPath: Option<DrawingPath>
    var currentShape: Option<DrawingShape>
    var showDrawingTools: bool

    /** A path in progress exists only during a gesture, was started by a
        freehand tool, and has at least its start point. (A shape in
        progress can outlive its gesture: ending a freehand gesture does
        not clear it.) */
    ghost predicate Valid()
      reads this
    {
      currentPath.Some? ==>
        isDrawing && Freehand(currentPath.value.tool) && |currentPath.value.points| > 0
    }

    constructor ()
      ensures Valid()
      ensures drawingTool == Pencil && drawingColor == "#3b82f6"
      ensures drawingWidth == 3.0 && drawingOpacity == 1.0 && !fillShapes
      ensures paths == [] && shapes == [] && !isDrawing
      ensures currentPath == None && currentShape == None && !showDrawingTools
    {
      drawingTool, drawingColor, drawingWidth, drawingOpacity := Pencil, "#3b82f6", 3.0, 1.0;
      fillShapes, paths, shapes, isDrawing := false, [], [], false;
      currentPath, currentShape, showDrawingTools := None, None, false;
    }

    method SetDrawingTool(t: DrawingTool)
      modifies this`drawingTool
      ensures drawingTool == t
    {
      drawingTool := t;
    }

    method SetDrawingColor(c: string)
      modifies this`drawingColor
      ensures drawingColor == c
    {
      drawingColor := c;
    }

    method SetDrawingWidth(w: real)
      modifies this`drawingWidth
      ensures drawingWidth == w
    {
      drawingWidth := w;
    }

    method SetDrawingOpacity(o: real)
      modifies this`drawingOpacity
      ensures drawingOpacity == o
    {
      drawingOpacity := o;
    }

    method SetFillShapes(fill: bool)
      modifies this`fillShapes
      ensures fillShapes == fill
    {
      fillShapes := fill;
    }

    /** Starts a freehand path or a shape at `p`, according to the tool;
        the select tool starts nothing. `id` is the clock-derived id. */
    method StartDrawing(p: Point, id: string)
      requires Valid()
      modifies this`isDrawing, this`currentPath, this`currentShape
      ensures Valid()
      ensures Freehand(drawingTool) ==>
        isDrawing && currentShape == old(currentShape) &&
        currentPath == Some(NewPath(id, drawingTool, p, drawingColor, drawingWidth, drawingOpacity))
      ensures ShapeTool(drawingTool) ==>
        isDrawing && currentPath == old(currentPath) &&
        currentShape == Some(DrawingShape(id, drawingTool, p, p, drawingColor, drawingWidth, drawingOpacity, Some(fillShapes)))
      ensures drawingTool == Select ==>
        isDrawing == old(isDrawing) && currentPath == old(currentPath) && currentShape == old(currentShape)
    {
      if Freehand(drawingTool) {
        isDrawing, currentPath := true, Some(NewPath(id, drawingTool, p, drawingColor, drawingWidth, drawingOpacity));
      } else if ShapeTool(drawingTool) {
        isDrawing := true;
        currentShape := Some(DrawingShape(id, drawingTool, p, p, drawingColor, drawingWidth, drawingOpacity, Some(fillShapes)));
      }
    }

    /** Extends the path in progress by `p`, or else moves the end of the
        shape in progress to `p`; nothing happens outside a gesture. */
    method ContinueDrawing(p: Point)
      requires Valid()
      modifies this`currentPath, this`currentShape
      ensures Valid()
      ensures !isDrawing ==> currentPath == old(currentPath) && currentShape == old(currentShape)
      ensures isDrawing && old(currentPath).Some? ==>
        currentPath == Some(old(currentPath).value.(points := old(currentPath).value.points + [p])) &&
        currentShape == old(currentShape)
      ensures isDrawing && old(currentPath).None? ==>
        currentPath == None &&
        currentShape == if old(currentShape).Some? then Some(old(currentShape).value.(end := p)) else None
    {
      if !isDrawing {
        return;
      }
      if currentPath.Some? {
        currentPath := Some(currentPath.value.(points := currentPath.value.points + [p]));
      } else if currentShape.Some? {
        currentShape := Some(currentShape.value.(end := p));
      }
    }

    /** Files the path in progress, or else the shape in progress, and ends
        the gesture; with neither, or outside a gesture, nothing happens. */
    method EndDrawing()
      requires Valid()
      modifies this`paths, this`shapes, this`currentPath, this`currentShape, this`isDrawing
      ensures Valid()
      ensures !old(isDrawing) || (old(currentPath).None? && old(currentShape).None?) ==>
        paths == old(paths) && shapes == old(shapes) && isDrawing == old(isDrawing) &&
        currentPath == old(currentPath) && currentShape == old(currentShape)
      ensures old(isDrawing) && old(currentPath).Some? ==>
        paths == old(paths) + [old(currentPath).value] && shapes == old(shapes) &&
        currentPath == None && currentShape == old(currentShape) && !isDrawing
      ensures old(isDrawing) && old(currentPath).None? && old(currentShape).Some? ==>
        shapes == old(shapes) + [old(currentShape).value] && paths == old(paths) &&
        currentPath == None && currentShape == None && !isDrawing
    {
      if !isDrawing {
        return;
      }
      if currentPath.Some? {
        paths, currentPath, isDrawing := paths + [currentPath.value], None, false;
      } else if currentShape.Some? {
        shapes, currentShape, isDrawing := shapes + [currentShape.value], None, false;
      }
    }

    method AddPath(path: DrawingPath)
      modifies this`paths
      ensures paths == old(paths) + [path]
    {
      paths := paths + [path];
    }

    method AddShape(shape: DrawingShape)
      modifies this`shapes
      ensures shapes == old(shapes) + [shape]
    {
      shapes := shapes + [shape];
    }

    method RemovePath(id: string)
      modifies this`paths
      ensures paths == Filter(old(paths), p => OtherPath(id, p))
    {
      paths := Filter(paths, p => OtherPath(id, p));
    }

    method RemoveShape(id: string)
      modifies this`shapes
      ensures shapes == Filter(old(shapes), s => OtherShape(id, s))
    {
      shapes := Filter(shapes, s => OtherShape(id, s));
    }

    /** Empties the drawing; a gesture under way stays under way. */
    method ClearDrawings()
      requires Valid()
      modifies this`paths, this`shapes, this`currentPath, this`currentShape
      ensures Valid()
      ensures paths == [] && shapes == [] && currentPath == None && currentShape == None
    {
      paths, shapes, currentPath, currentShape := [], [], None, None;
    }

    method ToggleDrawingTools()
      modifies this`showDrawingTools
      ensures showDrawingTools == !old(showDrawingTools)
    {
      showDrawingTools := !showDrawingTools;
    }

    method SetShowDrawingTools(show: bool)
      modifies this`showDrawingTools
      ensures showDrawingTools == show
    {
      showDrawingTools := show;
    }
  }

  /** Removing an id removes exactly the entries with that id and keeps the
      rest in order. */
  lemma RemoveOnlyThatId(ps: seq<DrawingPath>, more: seq<DrawingPath>, ss: seq<DrawingShape>, id: string)
    ensures forall p :: p in Filter(ps, p => OtherPath(id, p)) <==> p in ps && p.id != id
    ensures forall s :: s in Filter(ss, s => OtherShape(id, s)) <==> s in ss && s.id != id
    ensures Filter(ps + more, p => OtherPath(id, p)) ==
      Filter(ps, p => OtherPath(id, p)) + Filter(more, p => OtherPath(id, p))
  {
    FilterAppend(ps, more, p => OtherPath(id, p));
  }
}

/** Whole gestures on the drawing store. */
module DrawingStoreProps {
  import opened Base
  import opened Circuit
  import opened DrawingStore

  /** A freehand gesture from idle files exactly one path: the start point
      followed by the continued points in order. */
  method FreehandGesture(s: Store, start: Point, moves: seq<Point>, id: string)
    requires s.Valid() && !s.isDrawing && Freehand(s.drawingTool)
    modifies s
    ensures s.Valid() && !s.isDrawing
    ensures s.paths == old(s.paths) +
      [NewPath(id, old(s.drawingTool), start, old(s.drawingColor), old(s.drawingWidth), old(s.drawingOpacity)).(points := [start] + moves)]
    ensures s.shapes == old(s.shapes)
  {
    s.StartDrawing(start, id);
    ghost var first := s.currentPath.value;
    assert [start] + moves[..0] == [start];
    var i := 0;
    while i < |moves|
      invariant 0 <= i <= |moves|
      invariant s.Valid() && s.isDrawing
      invariant s.currentPath == Some(first.(points := [start] + moves[..i]))
      invariant s.paths == old(s.paths) && s.shapes == old(s.shapes)
      invariant s.drawingTool == old(s.drawingTool) && s.drawingColor == old(s.drawingColor)
      invariant s.drawingWidth == old(s.drawingWidth) && s.drawingOpacity == old(s.drawingOpacity)
    {
      s.ContinueDrawing(moves[i]);
      assert [start] + moves[..i + 1] == [start] + moves[..i] + [moves[i]];
      i := i + 1;
    }
    assert moves[..i] == moves;
    s.EndDrawing();
  }

  /** A shape gesture from idle with no path pending files exactly one
      shape, from the start point to the last point moved to. */
  method ShapeGesture(s: Store, start: Point, moves: seq<Point>, id: string)
    requires s.Valid() && !s.isDrawing && ShapeTool(s.drawingTool)
    modifies s
    ensures s.Valid() && !s.isDrawing
    ensures s.shapes == old(s.shapes) + [DrawingShape(id, old(s.drawingTool), start,
      if moves == [] then start else moves[|moves| - 1],
      old(s.drawingColor), old(s.drawingWidth), old(s.drawingOpacity), Some(old(s.fillShapes)))]
    ensures s.paths == old(s.paths)
  {
    s.StartDrawing(start, id);
    ghost var first := s.currentShape.value;
    var i := 0;
    while i < |moves|
      invariant 0 <= i <= |moves|
      invariant s.Valid() && s.isDrawing && s.currentPath == None
      invariant s.currentShape == Some(first.(end := if i == 0 then start else moves[i - 1]))
      invariant s.paths == old(s.paths) && s.shapes == old(s.shapes)
      invariant s.drawingTool == old(s.drawingTool) && s.drawingColor == old(s.drawingColor)
      invariant s.drawingWidth == old(s.drawingWidth) && s.drawingOpacity == old(s.drawingOpacity)
      invariant s.fillShapes == old(s.fillShapes)
    {
      s.ContinueDrawing(moves[i]);
      i := i + 1;
    }
    s.EndDrawing();
  }
}
