/**
 * The integer rectangle arithmetic of the paint methods in
 * src/qt6gtk2-style/qgtk2painter.cpp: when a tall box is cached at a
 * reduced height and stretched back in three strips (paintBox,
 * paintBoxGap), and where an indicator lands when a clip rectangle
 * replaces its own rectangle (paintArrow, paintOption, paintCheckbox).
 */
module PaintGeometry {
  import opened Geometry

  /** GtkPositionType, the side of a notebook frame that carries the gap. */
  datatype PositionType = PosLeft | PosRight | PosTop | PosBottom
  {
    /** The GTK enumeration value, GTK_POS_LEFT = 0 ... GTK_POS_BOTTOM = 3. */
    function Value(): int
    {
      match this
      case PosLeft => 0
      case PosRight => 1
      case PosTop => 2
      case PosBottom => 3
    }
  }

  const MaxHeight: int := 256
  const BoxMaxArea: int := 256 * 512
  const BoxBorder: int := 32
  const BoxGapBorder: int := 16

  // ---- paintBox: when to cache a reduced height -------------------------

  /** paintBox's test as the source writes it: the area is a 32-bit int product. */
  predicate BoxTilesAsWritten(width: int, height: int)
  {
    height > MaxHeight && WrapInt32(width * height) > BoxMaxArea
  }

  /** paintBox's test on the true area: the corrected condition the model uses. */
  predicate BoxTiles(width: int, height: int)
  {
    height > MaxHeight && width * height > BoxMaxArea
  }

  /** The height paintBox caches as the source writes its test. */
  function BoxCacheHeightAsWritten(width: int, height: int): (r: int)
    ensures r != height <==> BoxTilesAsWritten(width, height) && height != 65
    ensures BoxTilesAsWritten(width, height) ==> r == 65
    ensures r <= height
  {
    if BoxTilesAsWritten(width, height) then 2 * BoxBorder + 1 else height
  }

  /**
   * The height paintBox renders and caches: 65 rows for a box taller than
   * 256 whose area exceeds 256 * 512, the box's own height otherwise.
   */
  function BoxCacheHeight(width: int, height: int): (r: int)
    ensures r == 65 <==> BoxTiles(width, height) || height == 65
    ensures r != height <==> BoxTiles(width, height)
    ensures r <= height
  {
    if BoxTiles(width, height) then 2 * BoxBorder + 1 else height
  }

  /**
   * The two tests differ only on boxes whose area does not fit in an int:
   * whenever width * height is a 32-bit value, the model's corrected
   * height is the one the source computes.
   */
  lemma BoxTestsAgreeWhenAreaFits(width: int, height: int)
    requires IsInt32(width * height)
    ensures BoxTilesAsWritten(width, height) <==> BoxTiles(width, height)
    ensures BoxCacheHeightAsWritten(width, height) == BoxCacheHeight(width, height)
  {
  }

  /**
   * Both sides below are valid widget sizes, yet the 32-bit product
   * 32768 * 65536 = 2^31 wraps to INT_MIN, so the source does not tile the
   * box and hands the whole 32768 x 65536 rectangle to DRAW_TO_CACHE.
   * renderTheme's own byte count, width * height * 4 in int, wraps as well,
   * to 0, so even if every allocation succeeded no pixel would be converted.
   */
  lemma BoxAreaOverflowSkipsTiling()
    ensures 32768 <= WidgetSizeMax && 65536 <= WidgetSizeMax
    ensures !BoxTilesAsWritten(32768, 65536) && BoxTiles(32768, 65536)
    ensures BoxCacheHeightAsWritten(32768, 65536) == 65536 && BoxCacheHeight(32768, 65536) == 65
    ensures WrapInt32(WrapInt32(32768 * 65536) * 4) == 0
  {
    assert WrapInt32(32768 * 65536) == -0x8000_0000;
  }

  /**
   * The intended bound: the pixmap paintBox renders and caches never has
   * more pixels than 256 * 512 or than a 256-row slice of the box.
   */
  lemma BoxCachedAreaBounded(width: int, height: int)
    requires width > 0 && height > 0
    ensures width * BoxCacheHeight(width, height) <= Max(BoxMaxArea, width * MaxHeight)
  {
    if BoxTiles(width, height) {
      assert width * 65 <= width * MaxHeight;
    } else if height <= MaxHeight {
      assert width * height <= width * MaxHeight;
    }
  }

  // ---- paintBoxGap: when to cache a reduced height ----------------------

  /**
   * The height paintBoxGap renders and caches: 33 rows for a frame taller
   * than 256 whose gap is on the top or bottom side, its own height otherwise.
   */
  function BoxGapCacheHeight(height: int, gapSide: PositionType): (r: int)
    ensures r != height <==> height > MaxHeight && (gapSide == PosTop || gapSide == PosBottom)
    ensures r != height ==> r == 33
    ensures r <= height
  {
    if height > MaxHeight && (gapSide == PosTop || gapSide == PosBottom) then 2 * BoxGapBorder + 1 else height
  }

  // ---- the three strips --------------------------------------------------

  /**
   * The destination and source rectangles of the three draws that stretch
   * a reduced-height cached pixmap of size `cacheSize` over `paintRect`:
   * the top `border` rows, the middle part tiled with one cache row, and
   * the bottom `border` rows.
   */
  datatype Strips = Strips(top: Rect, topSource: Rect, middle: Rect, tileRow: int, bottom: Rect, bottomSource: Rect)

  function TileStrips(paintRect: Rect, border: int, cacheSize: Size): (s: Strips)
    requires 0 < border && 2 * border < paintRect.height
    // The three destination strips lie one after the other, span the full
    // width of paintRect and together cover exactly its rows.
    ensures s.top.x == s.middle.x == s.bottom.x == paintRect.x
    ensures s.top.width == s.middle.width == s.bottom.width == paintRect.width
    ensures s.top.y == paintRect.y && s.middle.y == s.top.y + s.top.height
    ensures s.bottom.y == s.middle.y + s.middle.height
    ensures s.bottom.y + s.bottom.height == paintRect.y + paintRect.height
    ensures s.top.height == border && s.bottom.height == border && s.middle.height > 0
    // The end caps are copied from the first and the last `border` rows of
    // the cached pixmap, the middle from the row just below the top cap.
    ensures s.topSource == Rect(0, 0, cacheSize.width, border)
    ensures s.bottomSource == Rect(0, cacheSize.height - border, cacheSize.width, border)
    ensures s.tileRow == border
  {
    Strips(Rect(paintRect.x, paintRect.y, paintRect.width, border),
           Rect(0, 0, cacheSize.width, border),
           Rect(paintRect.x, paintRect.y + border, paintRect.width, paintRect.height - 2 * border),
           border,
           Rect(paintRect.x, paintRect.y + paintRect.height - border, paintRect.width, border),
           Rect(0, cacheSize.height - border, cacheSize.width, border))
  }

  /** Each row of paintRect belongs to exactly one strip. */
  lemma StripsPartitionRows(paintRect: Rect, border: int, cacheSize: Size, row: int)
    requires 0 < border && 2 * border < paintRect.height
    ensures var s := TileStrips(paintRect, border, cacheSize);
      && (paintRect.HasRow(row) <==> s.top.HasRow(row) || s.middle.HasRow(row) || s.bottom.HasRow(row))
      && !(s.top.HasRow(row) && s.middle.HasRow(row))
      && !(s.top.HasRow(row) && s.bottom.HasRow(row))
      && !(s.middle.HasRow(row) && s.bottom.HasRow(row))
  {
  }

  /**
   * The cache row a destination row shows: end-cap rows are copied one to
   * one (destination and source strips have the same height), middle rows
   * all repeat the tile row.
   */
  function SourceRow(s: Strips, row: int): int
  {
    if s.top.HasRow(row) then s.topSource.y + (row - s.top.y)
    else if s.middle.HasRow(row) then s.tileRow
    else s.bottomSource.y + (row - s.bottom.y)
  }

  /**
   * With the cached height 2 * border + 1 that paintBox and paintBoxGap
   * use, the top `border` destination rows show cache rows [0, border),
   * every middle row shows cache row `border`, the bottom `border` rows
   * show cache rows [border + 1, 2 * border + 1); so every cache row is
   * shown, and no row outside the cache is read.
   */
  lemma StripRowMapping(paintRect: Rect, border: int, cacheWidth: int, row: int)
    requires 0 < border && 2 * border < paintRect.height
    requires paintRect.HasRow(row)
    ensures var s := TileStrips(paintRect, border, Size(cacheWidth, 2 * border + 1));
      var r := row - paintRect.y;
      var src := SourceRow(s, row);
      && 0 <= src < 2 * border + 1
      && (r < border ==> src == r)
      && (border <= r < paintRect.height - border ==> src == border)
      && (paintRect.height - border <= r ==> src == r - (paintRect.height - (2 * border + 1)))
  {
  }

  /**
   * When the cached pixmap is as wide as paintRect (it was rendered for a
   * rectangle of that width), each end cap is a one-to-one copy: source and
   * destination rectangles have the same size.
   */
  lemma EndCapsAreVerbatim(paintRect: Rect, border: int, cacheSize: Size)
    requires 0 < border && 2 * border < paintRect.height
    requires cacheSize.width == paintRect.width
    ensures var s := TileStrips(paintRect, border, cacheSize);
      && s.top.Dimensions() == s.topSource.Dimensions()
      && s.bottom.Dimensions() == s.bottomSource.Dimensions()
  {
  }

  // ---- indicators drawn through a clip rectangle -------------------------

  /**
   * Where paintArrow, paintOption and paintCheckbox render: the pixmap
   * rectangle (the painter's clip rectangle when it is valid, the
   * indicator's own rectangle otherwise), the clip handed to GTK (the whole
   * pixmap) and the offset of the indicator inside the pixmap.
   */
  datatype Placement = Placement(rect: Rect, gtkClip: Rect, xOffset: int, yOffset: int)

  function PlaceIndicator(clipRect: Rect, target: Rect): (pl: Placement)
    ensures pl.rect == if clipRect.IsValid() then clipRect else target
    ensures pl.gtkClip == Rect(0, 0, pl.rect.width, pl.rect.height)
    // Drawn at the offset inside a pixmap placed at pl.rect's top-left
    // corner, the indicator lands exactly on target's top-left corner.
    ensures pl.rect.x + pl.xOffset == target.x && pl.rect.y + pl.yOffset == target.y
    ensures !clipRect.IsValid() ==> pl.xOffset == 0 && pl.yOffset == 0
  {
    var rect := if clipRect.IsValid() then clipRect else target;
    Placement(rect, Rect(0, 0, rect.width, rect.height),
              if clipRect.IsValid() then target.x - clipRect.x else 0,
              if clipRect.IsValid() then target.y - clipRect.y else 0)
  }
}
