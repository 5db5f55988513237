/** The part of the Canvas 2D API the component uses, as a recorder of
    abstract drawing commands. */
module Canvas2D {
  import opened CanvasTypes

  /** The fixed size of the component's canvas element. */
  const CanvasWidth: nat := 1000
  const CanvasHeight: nat := 500

  /** One primitive issued to the canvas. `Stroke` is a polyline as built by
      moveTo and lineTo calls and stroked in one go; `FillCircle` is a
      filled arc. */
  datatype Command =
    | ClearRect(width: nat, height: nat)
    | DrawImage(image: Image, width: nat, height: nat)
    | Stroke(vertices: seq<Point>, lineWidth: nat, color: Color)
    | FillCircle(center: Point, radius: nat, color: Color)

  /** A 2D rendering context: everything drawn on it, oldest first. */
  class Context2D {
    var log: seq<Command>

    constructor ()
      ensures log == []
    {
      log := [];
    }

    method ClearRect(width: nat, height: nat)
      modifies this
      ensures log == old(log) + [Command.ClearRect(width, height)]
    {
      log := log + [Command.ClearRect(width, height)];
    }

    method DrawImage(image: Image, width: nat, height: nat)
      modifies this
      ensures log == old(log) + [Command.DrawImage(image, width, height)]
    {
      log := log + [Command.DrawImage(image, width, height)];
    }

    method Stroke(vertices: seq<Point>, lineWidth: nat, color: Color)
      modifies this
      ensures log == old(log) + [Command.Stroke(vertices, lineWidth, color)]
    {
      log := log + [Command.Stroke(vertices, lineWidth, color)];
    }

    method FillCircle(center: Point, radius: nat, color: Color)
      modifies this
      ensures log == old(log) + [Command.FillCircle(center, radius, color)]
    {
      log := log + [Command.FillCircle(center, radius, color)];
    }
  }
}
