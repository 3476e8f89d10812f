/**
 * What the apps hand to OpenCV's drawing calls and to Kivy textures, kept
 * abstract: a decoded frame is known by its size, and each `cv2.rectangle` /
 * `cv2.putText` call on it is one draw command appended to the frame.
 */
module Drawing {
  /** A decoded image: `img.shape[1]` columns by `img.shape[0]` rows. */
  datatype Frame = Frame(width: nat, height: nat)

  /** A texture or video frame size, `(width, height)` as Kivy and OpenCV take it. */
  datatype Size = Size(width: nat, height: nat)

  datatype Point = Point(x: int, y: int)

  /** The colour triple exactly as passed to OpenCV. */
  datatype Color = Color(c0: int, c1: int, c2: int)

  datatype Font = HersheySimplex | HersheyComplex

  /** A box as `(x, y, w, h)`, the form `cv2.dnn.DetectionModel.detect` returns. */
  datatype Box = Box(x: int, y: int, w: int, h: int)

  /**
   * The text of a `putText` call: a fixed string, or a class name with its score
   * (the `.2f` rendering of the score is not modelled).
   */
  datatype Caption = Literal(text: string) | Scored(name: string, probability: real)

  datatype DrawOp =
    | Rectangle(corner1: Point, corner2: Point, color: Color, thickness: int)
    | BoxOutline(box: Box, color: Color, thickness: int)
    | PutText(caption: Caption, origin: Point, font: Font, scale: real, color: Color, thickness: int)

  function SizeOf(f: Frame): Size
  {
    Size(f.width, f.height)
  }

  /** Number of rectangles (of either form) among the draw commands. */
  function CountRectangles(ops: seq<DrawOp>): nat
  {
    if ops == [] then 0
    else CountRectangles(ops[..|ops| - 1]) + (if ops[|ops| - 1].PutText? then 0 else 1)
  }
}
