/** The shape canvas of 05_paint_canvas/02_shape_drawing.py: a drag with the
    left button draws one shape of the selected type, which is then kept in
    the list of finished shapes. */
module ShapeDrawing {
  import opened Gui

  datatype PenStyle = SolidLine

  /** QPen(colour, width, style). */
  datatype Pen = Pen(color: Color, width: int, style: PenStyle)

  /** QBrush(colour). */
  datatype Brush = Brush(color: Color)

  /** A finished shape: copies of the type, the two corner points and the
      pen and brush current when the drag ended. */
  datatype Shape = Shape(kind: string, start: Point, end: Point, pen: Pen, brush: Brush)

  /** All fields of the canvas, for stating what a handler leaves alone. */
  datatype CanvasState = CanvasState(
    shapeType: string, drawing: bool, startPoint: Point, endPoint: Point,
    penColor: Color, brushColor: Color, shapes: seq<Shape>)

  /** What `draw_shape` asks the painter to draw. */
  datatype DrawCommand =
    | DrawRect(topLeft: Point, bottomRight: Point)
    | DrawEllipse(topLeft: Point, bottomRight: Point)
    | DrawLine(from: Point, to: Point)
    | DrawPath(points: seq<Point>)
    | DrawStar(start: Point, end: Point)
    | DrawNothing

  /** The triangle a drag from `start` to `end` spans: its right angle sits
      below (or above) the start point, level with the end point. */
  function TriangleVertices(start: Point, end: Point): (v: seq<Point>)
    ensures |v| == 3 && v[0] == start && v[2] == end
    ensures v[1].x == start.x && v[1].y == end.y
  {
    [start, Point(start.x, end.y), Point(end.x, end.y)]
  }

  /** The two legs of the triangle meet at a right angle. */
  lemma TriangleRightAngle(start: Point, end: Point)
    ensures var v := TriangleVertices(start, end);
      (v[0].x - v[1].x) * (v[2].x - v[1].x) + (v[0].y - v[1].y) * (v[2].y - v[1].y) == 0
  {
  }

  /** `draw_shape`: which primitive each shape type is drawn with. The star's
      vertices are computed in floating point and are not modelled. */
  function DrawShape(kind: string, start: Point, end: Point): (cmd: DrawCommand)
    ensures kind == "Triangle" ==>
      cmd.DrawPath? && cmd.points == TriangleVertices(start, end) + [start]
    ensures cmd.DrawPath? ==> |cmd.points| > 0 && cmd.points[0] == cmd.points[|cmd.points| - 1]
    ensures cmd == DrawNothing <==> kind !in {"Rectangle", "Ellipse", "Line", "Triangle", "Star"}
  {
    if kind == "Rectangle" then DrawRect(start, end)
    else if kind == "Ellipse" then DrawEllipse(start, end)
    else if kind == "Line" then DrawLine(start, end)
    else if kind == "Triangle" then
      var points := TriangleVertices(start, end);
      DrawPath(points + [points[0]])
    else if kind == "Star" then DrawStar(start, end)
    else DrawNothing
  }

  class ShapeCanvas {
    var shapeType: string
    var drawing: bool
    var startPoint: Point
    var endPoint: Point
    var penColor: Color
    var brushColor: Color
    var shapes: seq<Shape>

    function State(): CanvasState
      reads this
    {
      CanvasState(shapeType, drawing, startPoint, endPoint, penColor, brushColor, shapes)
    }

    /** Rectangles, not drawing, a black pen, a transparent white brush, no shapes. */
    constructor ()
      ensures State() == CanvasState("Rectangle", false, Point(), Point(),
                                     Color(0, 0, 0), Color(255, 255, 255, 0), [])
    {
      shapeType := "Rectangle";
      drawing := false;
      startPoint := Point();
      endPoint := Point();
      penColor := Color(0, 0, 0);
      brushColor := Color(255, 255, 255, 0);
      shapes := [];
    }

    /** A left press starts a drag at the press point. */
    method MousePressEvent(button: MouseButton, position: Point)
      modifies this
      ensures button == LeftButton ==>
        State() == old(State()).(drawing := true, startPoint := position, endPoint := position)
      ensures button != LeftButton ==> State() == old(State())
    {
      if button == LeftButton {
        drawing := true;
        startPoint := position;
        endPoint := startPoint;
      }
    }

    /** While the left button is held during a drag, the end point follows
        the mouse. */
    method MouseMoveEvent(buttons: set<MouseButton>, position: Point)
      modifies this
      ensures LeftButton in buttons && old(drawing) ==> State() == old(State()).(endPoint := position)
      ensures !(LeftButton in buttons && old(drawing)) ==> State() == old(State())
    {
      if LeftButton in buttons && drawing {
        endPoint := position;
      }
    }

    /** A left release ends a drag and keeps the finished shape. */
    method MouseReleaseEvent(button: MouseButton)
      modifies this
      ensures button == LeftButton && old(drawing) ==>
        State() == old(State()).(drawing := false, shapes := old(shapes) + [
          Shape(old(shapeType), old(startPoint), old(endPoint), Pen(old(penColor), 2, SolidLine), Brush(old(brushColor)))])
      ensures !(button == LeftButton && old(drawing)) ==> State() == old(State())
    {
      if button == LeftButton && drawing {
        drawing := false;
        var shape := Shape(shapeType, startPoint, endPoint, Pen(penColor, 2, SolidLine), Brush(brushColor));
        shapes := shapes + [shape];
      }
    }

    method SetShape(shape: string)
      modifies this
      ensures State() == old(State()).(shapeType := shape)
    {
      shapeType := shape;
    }

    method SetPenColor(color: Color)
      modifies this
      ensures State() == old(State()).(penColor := color)
    {
      penColor := color;
    }

    method SetBrushColor(color: Color)
      modifies this
      ensures State() == old(State()).(brushColor := color)
    {
      brushColor := color;
    }

    method ClearCanvas()
      modifies this
      ensures State() == old(State()).(shapes := [])
    {
      shapes := [];
    }
  }

  /** A complete drag adds one shape spanning from the press point to the
      last point moved to; changing the pen afterwards leaves it as drawn. */
  method DragThenRecolor(canvas: ShapeCanvas, from: Point, to: Point, recolor: Color)
    modifies canvas
    ensures |canvas.shapes| == |old(canvas.shapes)| + 1
    ensures canvas.shapes[..|old(canvas.shapes)|] == old(canvas.shapes)
    ensures var s := canvas.shapes[|canvas.shapes| - 1];
      s.kind == old(canvas.shapeType) && s.start == from && s.end == to && s.pen.color == old(canvas.penColor)
    ensures canvas.penColor == recolor && !canvas.drawing
  {
    canvas.MousePressEvent(LeftButton, from);
    canvas.MouseMoveEvent({LeftButton}, to);
    canvas.MouseReleaseEvent(LeftButton);
    canvas.SetPenColor(recolor);
  }
}
