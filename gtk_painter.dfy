/**
 * QGtkPainter (src/qt6gtk2-style/qgtkpainter.cpp and qgtkpainter_p.h):
 * the painter state every paint call consults, its reset and setters, and
 * the cache-key builder uniqueName.
 */
module GtkPainter {
  import opened Geometry
  import opened HexString
  import opened QtPainting

  /** A GtkWidget pointer as an address; 0 is the null pointer. */
  type WidgetId = x: int | 0 <= x < Two64

  /** The painter fields as one value. */
  datatype PainterState = PainterState(
    painter: QtPainter?, alpha: bool, hflipped: bool, vflipped: bool, usePixmapCache: bool, clipRect: Rect)

  /** The state reset(painter) establishes, whatever the state before. */
  function ResetState(painter: QtPainter?): PainterState
  {
    PainterState(painter, true, false, false, true, NullRect)
  }

  class GtkPainter {
    var painter: QtPainter?
    var alpha: bool
    var hflipped: bool
    var vflipped: bool
    var usePixmapCache: bool
    var clipRect: Rect

    function State(): PainterState
      reads this
    {
      PainterState(painter, alpha, hflipped, vflipped, usePixmapCache, clipRect)
    }

    /** A new painter has no target and is in the reset state. */
    constructor()
      ensures State() == ResetState(null)
    {
      painter := null;
      alpha := true;
      hflipped := false;
      vflipped := false;
      usePixmapCache := true;
      clipRect := NullRect;
    }

    /** Alpha on, no mirroring, caching on, no clip rectangle; no prior state survives. */
    method Reset(p: QtPainter?)
      modifies this
      ensures State() == ResetState(p)
      ensures !clipRect.IsValid()
    {
      painter := p;
      alpha := true;
      hflipped := false;
      vflipped := false;
      usePixmapCache := true;
      clipRect := NullRect;
    }

    method SetAlphaSupport(value: bool)
      modifies this`alpha
      ensures State() == old(State()).(alpha := value)
    {
      alpha := value;
    }

    method SetClipRect(rect: Rect)
      modifies this`clipRect
      ensures State() == old(State()).(clipRect := rect)
    {
      clipRect := rect;
    }

    method SetFlipHorizontal(value: bool)
      modifies this`hflipped
      ensures State() == old(State()).(hflipped := value)
    {
      hflipped := value;
    }

    method SetFlipVertical(value: bool)
      modifies this`vflipped
      ensures State() == old(State()).(vflipped := value)
    {
      vflipped := value;
    }

    method SetUsePixmapCache(value: bool)
      modifies this`usePixmapCache
      ensures State() == old(State()).(usePixmapCache := value)
    {
      usePixmapCache := value;
    }
  }

  /**
   * uniqueName: the key, then the state, the shadow, the width and the
   * height as 32-bit hex, then the widget pointer as 64-bit hex.  The
   * widget defaults to the null pointer.
   */
  function UniqueName(key: string, state: int, shadow: int, width: int, height: int, widget: WidgetId := 0): (n: string)
    ensures |n| == |key| + 48
    ensures n[..|key|] == key
  {
    key + HexString32(state) + HexString32(shadow) + HexString32(width) + HexString32(height) + HexString64(widget)
  }

  /** The name is the key followed by five fixed-width fields, in this order. */
  lemma UniqueNameLayout(key: string, state: int, shadow: int, width: int, height: int, widget: WidgetId)
    ensures var n := UniqueName(key, state, shadow, width, height, widget);
      var k := |key|;
      && |n| == k + 48
      && n[..k] == key
      && n[k..k + 8] == HexString32(state)
      && n[k + 8..k + 16] == HexString32(shadow)
      && n[k + 16..k + 24] == HexString32(width)
      && n[k + 24..k + 32] == HexString32(height)
      && n[k + 32..] == HexString64(widget)
  {
  }

  /** A call that omits the widget encodes it as sixteen '0' digits. */
  lemma UniqueNameDefaultWidget(key: string, state: int, shadow: int, width: int, height: int)
    ensures var n := UniqueName(key, state, shadow, width, height);
      |n| == |key| + 48 && forall i :: |key| + 32 <= i < |n| ==> n[i] == '0'
  {
    UniqueNameLayout(key, state, shadow, width, height, 0);
    HexZero(16);
  }

  /**
   * Different arguments give different names: for GTK state and shadow
   * enumeration values and C++ int sizes, equal names mean equal keys,
   * states, shadows, sizes and widgets.
   */
  lemma UniqueNameInjective(key1: string, state1: int, shadow1: int, width1: int, height1: int, widget1: WidgetId,
                            key2: string, state2: int, shadow2: int, width2: int, height2: int, widget2: WidgetId)
    requires 0 <= state1 < Two32 && 0 <= state2 < Two32 && 0 <= shadow1 < Two32 && 0 <= shadow2 < Two32
    requires IsInt32(width1) && IsInt32(width2) && IsInt32(height1) && IsInt32(height2)
    requires UniqueName(key1, state1, shadow1, width1, height1, widget1) == UniqueName(key2, state2, shadow2, width2, height2, widget2)
    ensures key1 == key2 && state1 == state2 && shadow1 == shadow2
    ensures width1 == width2 && height1 == height2 && widget1 == widget2
  {
    UniqueNameLayout(key1, state1, shadow1, width1, height1, widget1);
    UniqueNameLayout(key2, state2, shadow2, width2, height2, widget2);
    HexString32Injective(state1, state2);
    HexString32Injective(shadow1, shadow2);
    HexString32Injective(width1, width2);
    HexString32Injective(height1, height2);
    HexString64Injective(widget1, widget2);
  }
}
