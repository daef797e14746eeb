/**
 * The Qt painter the GTK painter draws into (the QPainter behind
 * m_painter).  Rasterisation is not modelled: the painter records each
 * draw request, with the target and source rectangles the paint methods
 * compute.
 */
module QtPainting {
  import opened Geometry
  import opened PixelFormat

  datatype DrawCall =
    | DrawPixmapAt(topLeft: Point, pixmap: Pixmap)                  // drawPixmap(point, pixmap)
    | DrawPixmapPart(target: Rect, pixmap: Pixmap, source: Rect)    // drawPixmap(target, pixmap, source)
    | DrawTiledRow(target: Rect, pixmap: Pixmap, row: int)          // drawTiledPixmap(target, one row of pixmap)

  class QtPainter {
    var drawn: seq<DrawCall>

    constructor()
      ensures drawn == []
    {
      drawn := [];
    }

    method Draw(call: DrawCall)
      modifies this
      ensures drawn == old(drawn) + [call]
    {
      drawn := drawn + [call];
    }
  }
}
