/** The values the annotation canvas works with: points, colours, drawings
    (polygon annotations) and the image they are drawn over. */
module CanvasTypes {

  datatype Option<+T> = None | Some(value: T)

  /** A CSS colour string, as the colour input reports it (for example "#ff9a00"). */
  type Color = string

  /** The colour of the current drawing when the component mounts and after every reset. */
  const DefaultColor: Color := "#ff9a00"

  /** A click position in canvas-local coordinates. */
  datatype Point = Point(x: int, y: int)

  /** A polygon annotation: its vertices in click order and the colour it is drawn in. */
  datatype Drawing = Drawing(points: seq<Point>, color: Color)

  /** The current drawing on mount and after a reset: no points, the default colour. */
  const Blank: Drawing := Drawing([], DefaultColor)

  /** A decoded bitmap, known by the URL it was loaded from. */
  datatype Image = Image(src: string)
}
