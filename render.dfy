/** What the render effect draws: the frame as a function of the component
    state, the lines and dots emitters that issue it, and what the frame
    shows. */
module Render {
  import opened CanvasTypes
  import opened Store
  import opened Canvas2D

  /** drawLines strokes with a 3-pixel line; drawDot fills a radius-3 arc. */
  const LineWidth: nat := 3
  const DotRadius: nat := 3

  // ----- The frame as a function of the state -----

  /** What drawLines issues: nothing below two points; otherwise one polyline
      that moves to the first point, draws a line to every point (the first
      one included, so it appears twice at the start), then a closing line
      back to the first point. */
  function LinesCommands(points: seq<Point>, color: Color): (r: seq<Command>)
    ensures |points| < 2 ==> r == []
    ensures |points| >= 2 ==>
      && |r| == 1 && r[0].Stroke?
      && r[0].lineWidth == LineWidth && r[0].color == color
      && |r[0].vertices| == |points| + 2
      && r[0].vertices[0] == points[0]
      && r[0].vertices[1..|points| + 1] == points
      && r[0].vertices[|points| + 1] == points[0]
  {
    if |points| < 2 then []
    else
      var vertices := [points[0]] + points + [points[0]];
      assert vertices[1..|points| + 1] == points;
      [Stroke(vertices, LineWidth, color)]
  }

  /** What the per-point forEach of drawDot issues: one dot per point, in
      point order, in the given colour. */
  function DotCommands(points: seq<Point>, color: Color): (r: seq<Command>)
    ensures |r| == |points|
    ensures forall i :: 0 <= i < |points| ==> r[i] == FillCircle(points[i], DotRadius, color)
    decreases |points|
  {
    if points == [] then []
    else DotCommands(points[..|points| - 1], color) + [FillCircle(points[|points| - 1], DotRadius, color)]
  }

  /** One drawing: its outline, then its dots, all in its own colour. */
  function DrawingCommands(d: Drawing): (r: seq<Command>)
    ensures |r| == |d.points| + (if |d.points| >= 2 then 1 else 0)
    ensures forall k :: 0 <= k < |r| ==> (r[k].Stroke? || r[k].FillCircle?) && r[k].color == d.color
  {
    LinesCommands(d.points, d.color) + DotCommands(d.points, d.color)
  }

  /** The finalized drawings, each in turn, in sequence order. */
  function FinalizedCommands(ds: seq<Drawing>): (r: seq<Command>)
    ensures forall k :: 0 <= k < |r| ==> r[k].Stroke? || r[k].FillCircle?
    decreases |ds|
  {
    if ds == [] then [] else DrawingCommands(ds[0]) + FinalizedCommands(ds[1..])
  }

  /** The render effect: nothing without an image; otherwise clear, the image
      stretched over the canvas, the finalized drawings, and the current
      drawing last. */
  function Frame(s: CanvasState): (r: seq<Command>)
    ensures s.image.None? ==> r == []
    ensures s.image.Some? ==>
      && |r| >= 2
      && r[0] == ClearRect(CanvasWidth, CanvasHeight)
      && r[1] == DrawImage(s.image.value, CanvasWidth, CanvasHeight)
      && |DrawingCommands(s.current)| <= |r|
      && r[|r| - |DrawingCommands(s.current)|..] == DrawingCommands(s.current)
  {
    match s.image
    case None => []
    case Some(img) =>
      [ClearRect(CanvasWidth, CanvasHeight), DrawImage(img, CanvasWidth, CanvasHeight)]
      + FinalizedCommands(s.drawings) + DrawingCommands(s.current)
  }

  // ----- Counting what a frame shows -----

  function DotCount(cmds: seq<Command>): nat
    decreases |cmds|
  {
    if cmds == [] then 0 else (if cmds[0].FillCircle? then 1 else 0) + DotCount(cmds[1..])
  }

  function StrokeCount(cmds: seq<Command>): nat
    decreases |cmds|
  {
    if cmds == [] then 0 else (if cmds[0].Stroke? then 1 else 0) + StrokeCount(cmds[1..])
  }

  /** The number of points over all the drawings. */
  function PointCount(ds: seq<Drawing>): nat
    decreases |ds|
  {
    if ds == [] then 0 else |ds[0].points| + PointCount(ds[1..])
  }

  /** The number of drawings with an outline, that is with two points or more. */
  function OutlineCount(ds: seq<Drawing>): nat
    decreases |ds|
  {
    if ds == [] then 0 else (if |ds[0].points| >= 2 then 1 else 0) + OutlineCount(ds[1..])
  }

  lemma {:induction false} CountsOfConcat(a: seq<Command>, b: seq<Command>)
    ensures DotCount(a + b) == DotCount(a) + DotCount(b)
    ensures StrokeCount(a + b) == StrokeCount(a) + StrokeCount(b)
    decreases |a|
  {
    if a == [] {
      assert a + b == b;
    } else {
      assert (a + b)[1..] == a[1..] + b;
      CountsOfConcat(a[1..], b);
    }
  }

  lemma {:induction false} CountsOfDots(points: seq<Point>, color: Color)
    ensures DotCount(DotCommands(points, color)) == |points|
    ensures StrokeCount(DotCommands(points, color)) == 0
    decreases |points|
  {
    if points != [] {
      var init := points[..|points| - 1];
      CountsOfDots(init, color);
      CountsOfConcat(DotCommands(init, color), [FillCircle(points[|points| - 1], DotRadius, color)]);
    }
  }

  /** A drawing contributes one dot per point, and one outline exactly when
      it has two points or more. */
  lemma CountsOfDrawing(d: Drawing)
    ensures DotCount(DrawingCommands(d)) == |d.points|
    ensures StrokeCount(DrawingCommands(d)) == if |d.points| >= 2 then 1 else 0
  {
    CountsOfDots(d.points, d.color);
    CountsOfConcat(LinesCommands(d.points, d.color), DotCommands(d.points, d.color));
    var lines := LinesCommands(d.points, d.color);
    if |d.points| >= 2 {
      assert lines[1..] == [];
    }
  }

  lemma {:induction false} CountsOfFinalized(ds: seq<Drawing>)
    ensures DotCount(FinalizedCommands(ds)) == PointCount(ds)
    ensures StrokeCount(FinalizedCommands(ds)) == OutlineCount(ds)
    decreases |ds|
  {
    if ds != [] {
      CountsOfFinalized(ds[1..]);
      CountsOfDrawing(ds[0]);
      CountsOfConcat(DrawingCommands(ds[0]), FinalizedCommands(ds[1..]));
    }
  }

  /** A frame has one dot per point of every drawing, finalized or current,
      and one outline per drawing of two points or more; without an image it
      has none. */
  lemma FrameCounts(s: CanvasState)
    ensures s.image.None? ==> DotCount(Frame(s)) == 0 && StrokeCount(Frame(s)) == 0
    ensures s.image.Some? ==> DotCount(Frame(s)) == PointCount(s.drawings) + |s.current.points|
    ensures s.image.Some? ==>
      StrokeCount(Frame(s)) == OutlineCount(s.drawings) + (if |s.current.points| >= 2 then 1 else 0)
  {
    if s.image.Some? {
      var head := [ClearRect(CanvasWidth, CanvasHeight), DrawImage(s.image.value, CanvasWidth, CanvasHeight)];
      assert DotCount(head) == 0 && StrokeCount(head) == 0 by {
        var tail := head[1..];
        assert tail[1..] == [];
        assert DotCount(tail) == 0 && StrokeCount(tail) == 0;
      }
      CountsOfFinalized(s.drawings);
      CountsOfDrawing(s.current);
      CountsOfConcat(head, FinalizedCommands(s.drawings));
      CountsOfConcat(head + FinalizedCommands(s.drawings), DrawingCommands(s.current));
    }
  }

  // ----- Order of a frame -----

  lemma {:induction false} FinalizedOfConcat(a: seq<Drawing>, b: seq<Drawing>)
    ensures FinalizedCommands(a + b) == FinalizedCommands(a) + FinalizedCommands(b)
    decreases |a|
  {
    if a == [] {
      assert a + b == b;
    } else {
      assert (a + b)[0] == a[0];
      assert (a + b)[1..] == a[1..] + b;
      FinalizedOfConcat(a[1..], b);
    }
  }

  lemma AppendAssoc<T>(x: seq<T>, y: seq<T>, z: seq<T>)
    ensures (x + y) + z == x + (y + z)
  {
  }

  lemma Regroup<T>(o: seq<T>, h: seq<T>, f: seq<T>, l: seq<T>, d: seq<T>)
    ensures o + h + f + l + d == o + (h + f + (l + d))
  {
  }

  /** Appending a drawing appends its outline and then its dots. */
  lemma FinalizedAppendOne(ds: seq<Drawing>, d: Drawing)
    ensures FinalizedCommands(ds + [d]) ==
      FinalizedCommands(ds) + LinesCommands(d.points, d.color) + DotCommands(d.points, d.color)
  {
    FinalizedOfConcat(ds, [d]);
    assert [d][1..] == [];
    assert FinalizedCommands([d]) == DrawingCommands(d) + [];
    AppendAssoc(FinalizedCommands(ds), LinesCommands(d.points, d.color), DotCommands(d.points, d.color));
  }

  /** One pass of the render loop: what was issued for the drawings before
      the i-th, followed by the i-th drawing's outline and dots, is what is
      issued for the drawings up to and including the i-th. */
  lemma RenderLoopStep(prefix: seq<Command>, ds: seq<Drawing>, i: nat)
    requires i < |ds|
    ensures prefix + FinalizedCommands(ds[..i])
      + LinesCommands(ds[i].points, ds[i].color) + DotCommands(ds[i].points, ds[i].color)
      == prefix + FinalizedCommands(ds[..i + 1])
  {
    var lines, dots := LinesCommands(ds[i].points, ds[i].color), DotCommands(ds[i].points, ds[i].color);
    FinalizedAppendOne(ds[..i], ds[i]);
    assert ds[..i + 1] == ds[..i] + [ds[i]];
    AppendAssoc(prefix, FinalizedCommands(ds[..i]) + lines, dots);
    AppendAssoc(prefix, FinalizedCommands(ds[..i]), lines);
  }

  /** The finalized drawings are drawn one after the other: those before the
      i-th, the i-th, then those after it. */
  lemma FinalizedSplit(ds: seq<Drawing>, i: nat)
    requires i < |ds|
    ensures FinalizedCommands(ds) ==
      FinalizedCommands(ds[..i]) + DrawingCommands(ds[i]) + FinalizedCommands(ds[i + 1..])
  {
    assert ds == ds[..i] + ds[i..];
    FinalizedOfConcat(ds[..i], ds[i..]);
    assert ds[i..][1..] == ds[i + 1..];
    assert ds[i..][0] == ds[i];
    AppendAssoc(FinalizedCommands(ds[..i]), DrawingCommands(ds[i]), FinalizedCommands(ds[i + 1..]));
  }

  /** A frame is drawn in order: the clear, the image, the finalized drawings
      before the i-th, the i-th drawing, the later finalized drawings, and the current drawing last, on top. */
  lemma FrameOrder(s: CanvasState, i: nat)
    requires s.image.Some? && i < |s.drawings|
    ensures Frame(s) ==
      [ClearRect(CanvasWidth, CanvasHeight), DrawImage(s.image.value, CanvasWidth, CanvasHeight)]
      + FinalizedCommands(s.drawings[..i])
      + DrawingCommands(s.drawings[i])
      + FinalizedCommands(s.drawings[i + 1..])
      + DrawingCommands(s.current)
  {
    var head := [ClearRect(CanvasWidth, CanvasHeight), DrawImage(s.image.value, CanvasWidth, CanvasHeight)];
    var before, d, after := FinalizedCommands(s.drawings[..i]), DrawingCommands(s.drawings[i]), FinalizedCommands(s.drawings[i + 1..]);
    FinalizedSplit(s.drawings, i);
    AppendAssoc(head, before + d, after);
    AppendAssoc(head, before, d);
  }

  /** The frame is empty exactly when no image is loaded. */
  lemma FrameEmptyIffNoImage(s: CanvasState)
    ensures Frame(s) == [] <==> s.image.None?
  {
  }

  // ----- How the transitions change the picture -----

  /** Committing does not change the picture: the drawing moves from the top
      of the frame to the end of the finalized ones, in the same colour. */
  lemma CommitKeepsFrame(s: CanvasState)
    ensures Frame(Commit(s)) == Frame(s)
  {
    if s.current.points != [] && s.image.Some? {
      var head := [ClearRect(CanvasWidth, CanvasHeight), DrawImage(s.image.value, CanvasWidth, CanvasHeight)];
      var before, moved := FinalizedCommands(s.drawings), DrawingCommands(s.current);
      FinalizedOfConcat(s.drawings, [s.current]);
      assert [s.current][1..] == [];
      assert FinalizedCommands([s.current]) == moved + [] == moved;
      assert DrawingCommands(Commit(s).current) == [];
      AppendAssoc(head, before, moved);
      assert Frame(Commit(s)) == head + (before + moved) + [];
    }
  }

  /** A colour change redraws only the current drawing: the image and every
      finalized drawing are issued exactly as before. */
  lemma SetColorKeepsFinalized(s: CanvasState, c: Color)
    requires s.image.Some?
    ensures var k := 2 + |FinalizedCommands(s.drawings)|;
      && |Frame(SetColor(s, c))| == |Frame(s)|
      && Frame(SetColor(s, c))[..k] == Frame(s)[..k]
      && Frame(SetColor(s, c))[k..] == DrawingCommands(Drawing(s.current.points, c))
  {
  }

  /** With an image loaded, each click adds exactly one dot to the frame. */
  lemma ClickAddsOneDot(s: CanvasState, p: Point)
    requires s.image.Some?
    ensures DotCount(Frame(AddPoint(s, p))) == DotCount(Frame(s)) + 1
  {
    FrameCounts(s);
    FrameCounts(AddPoint(s, p));
  }

  /** In a reachable state the reset control is shown exactly when the frame
      draws at least one dot. */
  lemma ResetButtonIffDotsDrawn(s: CanvasState)
    requires Valid(s)
    ensures ShowsResetButton(s) <==> DotCount(Frame(s)) > 0
  {
    FrameCounts(s);
  }

  // ----- The emitters -----

  /** drawLines: the forEach of lineTo calls builds the path after the moveTo
      to the first point, then the closing lineTo and the stroke follow. */
  method DrawLines(ctx: Context2D, points: seq<Point>, color: Color)
    modifies ctx
    ensures ctx.log == old(ctx.log) + LinesCommands(points, color)
  {
    if |points| < 2 {
      return;
    }
    var path := [points[0]];
    for i := 0 to |points|
      invariant path == [points[0]] + points[..i]
    {
      path := path + [points[i]];
    }
    assert points[..|points|] == points;
    if |points| > 0 {
      path := path + [points[0]];
    }
    ctx.Stroke(path, LineWidth, color);
  }

  /** drawDot: a filled radius-3 circle at the point. */
  method DrawDot(ctx: Context2D, point: Point, color: Color)
    modifies ctx
    ensures ctx.log == old(ctx.log) + [FillCircle(point, DotRadius, color)]
  {
    ctx.FillCircle(point, DotRadius, color);
  }

  /** The forEach that calls drawDot for every point of a drawing. */
  method DrawDots(ctx: Context2D, points: seq<Point>, color: Color)
    modifies ctx
    ensures ctx.log == old(ctx.log) + DotCommands(points, color)
  {
    for i := 0 to |points|
      invariant ctx.log == old(ctx.log) + DotCommands(points[..i], color)
    {
      assert points[..i + 1][..i] == points[..i];
      DrawDot(ctx, points[i], color);
    }
    assert points[..|points|] == points;
  }
}
