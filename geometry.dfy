/**
 * The Qt value types the painter computes with: points, sizes and
 * rectangles, plus the 32-bit integer arithmetic of C++ `int`.
 *
 * A QRect stores its corners (x1, y1, x2, y2) with width x2 - x1 + 1; the
 * model keeps (x, y, width, height), which is the same information.
 * QRect() is (0, 0, -1, -1): width and height 0, hence not valid.
 */
module Geometry {

  /** QWIDGETSIZE_MAX, (1 << 24) - 1. */
  const WidgetSizeMax: int := 16777215

  const Int32Min: int := -0x8000_0000
  const Int32Max: int := 0x7fff_ffff

  predicate IsInt32(x: int) { Int32Min <= x <= Int32Max }

  function Max(a: int, b: int): int { if a < b then b else a }

  /** The value a 32-bit two's-complement `int` holds after computing x. */
  function WrapInt32(x: int): (r: int)
    ensures IsInt32(r)
    ensures (r - x) % 0x1_0000_0000 == 0
    ensures IsInt32(x) ==> r == x
  {
    (x + 0x8000_0000) % 0x1_0000_0000 - 0x8000_0000
  }

  datatype Point = Point(x: int, y: int)

  datatype Size = Size(width: int, height: int)

  datatype Rect = Rect(x: int, y: int, width: int, height: int)
  {
    /** QRect::isValid: left <= right and top <= bottom. */
    predicate IsValid() { width > 0 && height > 0 }

    /** QRect::size(). */
    function Dimensions(): Size { Size(width, height) }

    function TopLeft(): Point { Point(x, y) }

    /** The half-open range of pixel rows [y, y + height) the rectangle covers. */
    predicate HasRow(row: int) { y <= row < y + height }
  }

  /** QRect(), the null rectangle. */
  const NullRect: Rect := Rect(0, 0, 0, 0)

  lemma NullRectIsInvalid()
    ensures !NullRect.IsValid()
  {
  }
}
