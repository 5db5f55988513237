/** The ImageCanvas component: its state, the handlers that replace that
    state, and the render effect that redraws the canvas from it. */
module Component {
  import opened CanvasTypes
  import opened Store
  import opened Canvas2D
  import opened Render

  class ImageCanvas {
    var drawings: seq<Drawing>
    var currentDrawing: Drawing
    var image: Option<Image>

    /** The component state as a value. */
    function State(): CanvasState
      reads this
    {
      CanvasState(drawings, currentDrawing, image)
    }

    /** Every finalized drawing has at least one point. */
    ghost predicate Valid()
      reads this
    {
      Store.Valid(State())
    }

    /** On mount: no drawings, a blank current drawing, no image yet. */
    constructor ()
      ensures State() == Initial && Valid()
    {
      drawings := [];
      currentDrawing := Blank;
      image := None;
    }

    /** The continuation of the default image load: the image is shown. */
    method OnDefaultImageLoad(img: Image)
      requires Valid()
      modifies this
      ensures Valid()
      ensures image == Some(img)
      ensures drawings == old(drawings) && currentDrawing == old(currentDrawing)
      ensures State() == Step(old(State()), DefaultDecoded(img))
    {
      image := Some(img);
    }

    /** handleMouseClick, given the click already in canvas coordinates:
        the point is appended to the current drawing. */
    method HandleMouseClick(p: Point)
      requires Valid()
      modifies this
      ensures Valid()
      ensures currentDrawing.points == old(currentDrawing.points) + [p]
      ensures currentDrawing.color == old(currentDrawing.color)
      ensures drawings == old(drawings) && image == old(image)
      ensures State() == Step(old(State()), CanvasClick(p))
    {
      currentDrawing := WithPoint(currentDrawing, p);
    }

    /** handleAddNewDrawing: a current drawing with points is committed. */
    method HandleAddNewDrawing()
      requires Valid()
      modifies this
      ensures Valid()
      ensures old(currentDrawing.points) == [] ==>
        drawings == old(drawings) && currentDrawing == old(currentDrawing)
      ensures old(currentDrawing.points) != [] ==>
        && drawings == old(drawings) + [old(currentDrawing)]
        && currentDrawing == Drawing([], old(currentDrawing.color))
      ensures image == old(image)
      ensures State() == Step(old(State()), AddDrawingClick)
    {
      if |currentDrawing.points| > 0 {
        drawings := drawings + [currentDrawing];
        currentDrawing := WithoutPoints(currentDrawing);
      }
    }

    /** The colour input's onChange: only the current drawing's colour changes. */
    method HandleColorChange(c: Color)
      requires Valid()
      modifies this
      ensures Valid()
      ensures currentDrawing == Drawing(old(currentDrawing.points), c)
      ensures drawings == old(drawings) && image == old(image)
      ensures State() == Step(old(State()), ColorInput(c))
    {
      currentDrawing := WithColor(currentDrawing, c);
    }

    /** resetCanvas: back to no drawings and a blank current drawing; the image stays. */
    method ResetCanvas()
      requires Valid()
      modifies this
      ensures Valid()
      ensures drawings == [] && currentDrawing == Blank && image == old(image)
      ensures State() == Step(old(State()), ResetClick)
    {
      drawings := [];
      currentDrawing := Blank;
    }

    /** The onload continuation of handleImageUpload: install the image, then reset. */
    method OnImageUpload(img: Image)
      requires Valid()
      modifies this
      ensures Valid()
      ensures image == Some(img) && drawings == [] && currentDrawing == Blank
      ensures State() == Step(old(State()), UploadDecoded(img))
    {
      image := Some(img);
      ResetCanvas();
    }

    /** The render effect: with an image, clear the canvas, draw the image
        over all of it, then each finalized drawing's lines and dots, then the
        current drawing's. */
    method Render(ctx: Context2D)
      modifies ctx
      ensures ctx.log == old(ctx.log) + Frame(State())
    {
      if image.None? {
        return;
      }
      ctx.ClearRect(CanvasWidth, CanvasHeight);
      ctx.DrawImage(image.value, CanvasWidth, CanvasHeight);
      ghost var head := [ClearRect(CanvasWidth, CanvasHeight), DrawImage(image.value, CanvasWidth, CanvasHeight)];
      ghost var prefix := old(ctx.log) + head;
      for i := 0 to |drawings|
        invariant ctx.log == prefix + FinalizedCommands(drawings[..i])
      {
        var draw := drawings[i];
        DrawLines(ctx, draw.points, draw.color);
        DrawDots(ctx, draw.points, draw.color);
        RenderLoopStep(prefix, drawings, i);
      }
      assert drawings[..|drawings|] == drawings;
      DrawLines(ctx, currentDrawing.points, currentDrawing.color);
      DrawDots(ctx, currentDrawing.points, currentDrawing.color);
      Regroup(old(ctx.log), head, FinalizedCommands(drawings),
        LinesCommands(currentDrawing.points, currentDrawing.color),
        DotCommands(currentDrawing.points, currentDrawing.color));
    }
  }

  /** A frame over one finalized triangle and a one-point current drawing
      has four dots and one outline. */
  lemma TriangleAndPointCounts(s: CanvasState)
    requires s.image.Some? && |s.drawings| == 1
    requires |s.drawings[0].points| == 3 && |s.current.points| == 1
    ensures DotCount(Frame(s)) == 4 && StrokeCount(Frame(s)) == 1
  {
    FrameCounts(s);
    assert s.drawings[1..] == [];
    assert PointCount(s.drawings[1..]) == 0 && OutlineCount(s.drawings[1..]) == 0;
  }

  /** Load an image, click three corners, commit, switch to green, click once
      more, and render: one orange triangle is finalized, one green point is
      in progress, and the frame shows four dots and a single outline. */
  method RoofScenario(img: Image) returns (finalized: seq<Drawing>, current: Drawing, frame: seq<Command>)
    ensures finalized == [Drawing([Point(10, 10), Point(50, 10), Point(50, 50)], "#ff9a00")]
    ensures current == Drawing([Point(5, 5)], "#00ff00")
    ensures DotCount(frame) == 4 && StrokeCount(frame) == 1
  {
    var canvas := new ImageCanvas();
    canvas.OnImageUpload(img);
    canvas.HandleMouseClick(Point(10, 10));
    canvas.HandleMouseClick(Point(50, 10));
    canvas.HandleMouseClick(Point(50, 50));
    assert canvas.currentDrawing.points == [Point(10, 10), Point(50, 10), Point(50, 50)];
    canvas.HandleAddNewDrawing();
    canvas.HandleColorChange("#00ff00");
    canvas.HandleMouseClick(Point(5, 5));
    assert canvas.currentDrawing.points == [Point(5, 5)];
    finalized, current := canvas.drawings, canvas.currentDrawing;
    var ctx := new Context2D();
    canvas.Render(ctx);
    frame := ctx.log;
    assert frame == Frame(canvas.State());
    TriangleAndPointCounts(canvas.State());
  }
}
