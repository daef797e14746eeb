/**
 * QGtk2Painter (src/qt6gtk2-style/qgtk2painter.cpp): every paint method
 * turns one gtk_paint_* call into a cached Qt pixmap and draws that pixmap
 * through the Qt painter.
 *
 * GTK is foreign code.  The model records each drawing request GTK
 * receives, and takes as a parameter (GtkEnv) what GTK does with it:
 * whether the off-screen pixmap and the pixbufs could be allocated and
 * which bytes a request paints.
 */
module Gtk2Painter {
  import opened Wrappers
  import opened GtkGlobal
  import opened Geometry
  import opened PixelFormat
  import opened HexString
  import opened QtPainting
  import opened PixmapCache
  import opened GtkPainter
  import opened PaintGeometry

  /** A GtkStyle pointer. */
  type StyleId = int

  const ShadowNone: int := 0

  /** The gtk_paint_* function a paint method calls, with the arguments it passes. */
  datatype GtkCall =
    | BoxGapCall(state: int, shadow: int, widget: WidgetId, part: string, x: int, y: int, width: int, height: int,
                 gapSide: PositionType, gapX: int, gapWidth: int)
    | BoxCall(state: int, shadow: int, widget: WidgetId, part: string, x: int, y: int, width: int, height: int)
    | HlineCall(state: int, widget: WidgetId, part: string, x1: int, x2: int, y: int)
    | VlineCall(state: int, widget: WidgetId, part: string, y1: int, y2: int, x: int)
    | ExpanderCall(state: int, widget: WidgetId, part: string, x: int, y: int, expanderStyle: int)
    | FocusCall(state: int, widget: WidgetId, part: string, x: int, y: int, width: int, height: int)
    | ResizeGripCall(state: int, widget: WidgetId, part: string, edge: int, x: int, y: int, width: int, height: int)
    | ArrowCall(state: int, shadow: int, clip: Rect, widget: WidgetId, part: string, arrowType: int, fill: bool,
                x: int, y: int, width: int, height: int)
    | HandleCall(state: int, shadow: int, widget: WidgetId, part: string, x: int, y: int, width: int, height: int,
                 orientation: int)
    | SliderCall(state: int, shadow: int, widget: WidgetId, part: string, x: int, y: int, width: int, height: int,
                 orientation: int)
    | ShadowCall(state: int, shadow: int, widget: WidgetId, part: string, x: int, y: int, width: int, height: int)
    | FlatBoxCall(state: int, shadow: int, widget: WidgetId, part: string, x: int, y: int, width: int, height: int)
    | ExtensionCall(state: int, shadow: int, widget: WidgetId, part: string, x: int, y: int, width: int, height: int,
                    gapSide: PositionType)
    | OptionCall(state: int, shadow: int, clip: Rect, widget: WidgetId, detail: string, x: int, y: int, width: int, height: int)
    | CheckCall(state: int, shadow: int, clip: Rect, widget: WidgetId, detail: string, x: int, y: int, width: int, height: int)

  /** The colour the off-screen pixmap is filled with before GTK draws. */
  datatype Background = Black | StyleBackground | White

  /** One gtk_paint_* call on a width x height pixmap, with the style attached to the painter's window. */
  datatype GtkRequest = GtkRequest(call: GtkCall, style: StyleId, window: WidgetId, background: Background, width: int, height: int)

  /**
   * What GTK does: whether gdk_pixmap_new and each of the two
   * gdk_pixbuf_new calls succeed, and the bytes a request leaves in the
   * pixbuf it is read back into (GTK's B, G, R, A order).
   */
  datatype GtkEnv = GtkEnv(pixmapAllocates: bool, pixbufAllocates: bool, whitePixbufAllocates: bool,
                           raster: GtkRequest -> int -> Byte)

  /** The pixbuf gdk_pixbuf_get_from_drawable fills: `count` bytes of the request's raster. */
  function Readback(env: GtkEnv, request: GtkRequest, count: nat): (r: seq<Byte>)
    ensures |r| == count
  {
    var paint := env.raster(request);
    assert forall i :: 0 <= paint(i) < 256;
    seq(count, i => paint(i))
  }

  /** With alpha support the first render is over black, otherwise over the style's background. */
  function FirstBackground(alpha: bool): Background
  {
    if alpha then Black else StyleBackground
  }

  /**
   * The requests DRAW_TO_CACHE sends to GTK before it finishes or gives up:
   * none when the size is too large or no pixmap is allocated; the first
   * render; and, with alpha support once the first pixbuf exists, the render
   * over white (sent before its pixbuf is allocated).
   */
  function IssuedRequests(alpha: bool, rect: Rect, call: GtkCall, style: StyleId, window: WidgetId, env: GtkEnv): (r: seq<GtkRequest>)
    ensures r == [] <==> rect.width > WidgetSizeMax || rect.height > WidgetSizeMax || !env.pixmapAllocates
    ensures |r| <= 2 && (|r| == 2 <==> r != [] && alpha && env.pixbufAllocates)
    ensures forall q :: q in r ==> q.call == call && q.style == style && q.window == window
                                   && q.width == rect.width && q.height == rect.height
    ensures r != [] ==> r[0].background == FirstBackground(alpha)
    ensures |r| == 2 ==> r[1].background == White
  {
    if rect.width > WidgetSizeMax || rect.height > WidgetSizeMax || !env.pixmapAllocates then []
    else
      var first := GtkRequest(call, style, window, FirstBackground(alpha), rect.width, rect.height);
      if !alpha || !env.pixbufAllocates then [first]
      else [first, GtkRequest(call, style, window, White, rect.width, rect.height)]
  }

  /**
   * The pixmap DRAW_TO_CACHE leaves in `cache`, or None when it returns
   * from the paint call: a size above QWIDGETSIZE_MAX, or a failed pixmap or
   * pixbuf allocation.  Otherwise the first render converted to Qt's
   * layout, with alpha recovered from the render over white when alpha
   * support is on, and mirrored as the painter's flags ask.
   */
  function RenderedPixmap(order: ByteOrder, alpha: bool, hflipped: bool, vflipped: bool,
                          rect: Rect, call: GtkCall, style: StyleId, window: WidgetId, env: GtkEnv): (r: Option<Pixmap>)
    requires rect.IsValid()
    ensures r.Some? ==> r.value.width == rect.width && r.value.height == rect.height
    ensures r.Some? ==> |r.value.data| == 4 * (rect.width * rect.height)
    ensures r.Some? <==> rect.width <= WidgetSizeMax && rect.height <= WidgetSizeMax
                         && env.pixmapAllocates && env.pixbufAllocates && (alpha ==> env.whitePixbufAllocates)
  {
    if rect.width > WidgetSizeMax || rect.height > WidgetSizeMax then None
    else if !env.pixmapAllocates || !env.pixbufAllocates then None
    else if alpha && !env.whitePixbufAllocates then None
    else
      var pixels := rect.width * rect.height;
      var black := Readback(env, GtkRequest(call, style, window, FirstBackground(alpha), rect.width, rect.height), 4 * pixels);
      var white := if alpha then Readback(env, GtkRequest(call, style, window, White, rect.width, rect.height), 4 * pixels) else [];
      Some(Pixmap(rect.width, rect.height, ConvertBuffer(order, alpha, black, white, pixels), alpha, hflipped, vflipped))
  }

  /**
   * A pixmap rendered with alpha support from a request that GTK paints
   * identically over black and over white is opaque: every alpha byte is 255.
   */
  lemma OpaqueRenderHasFullAlpha(order: ByteOrder, hflipped: bool, vflipped: bool, rect: Rect, call: GtkCall,
                                 style: StyleId, window: WidgetId, env: GtkEnv, p: nat)
    requires rect.IsValid() && p < rect.width * rect.height
    requires env.raster(GtkRequest(call, style, window, Black, rect.width, rect.height))
          == env.raster(GtkRequest(call, style, window, White, rect.width, rect.height))
    requires RenderedPixmap(order, true, hflipped, vflipped, rect, call, style, window, env).Some?
    ensures Channel(RenderedPixmap(order, true, hflipped, vflipped, rect, call, style, window, env).value.data, p, QtAlpha(order)) == 255
  {
    var pixels := rect.width * rect.height;
    var black := Readback(env, GtkRequest(call, style, window, Black, rect.width, rect.height), 4 * pixels);
    var white := Readback(env, GtkRequest(call, style, window, White, rect.width, rect.height), 4 * pixels);
    assert black == white;
    ConvertBufferChannels(order, true, black, white, pixels, p);
    AlphaOpaqueWhenRendersAgree(Channel(black, p, GtkBlue), Channel(black, p, GtkGreen), Channel(black, p, GtkRed));
  }

  // ---- cache keys ----------------------------------------------------------

  function BoxGapKey(part: string, state: int, shadow: int, rect: Rect, widget: WidgetId,
                     gapSide: PositionType, x: int, width: int): (k: string)
    ensures |k| == |part| + 48 + 18
    ensures k[..|part| + 48] == UniqueName(part, state, shadow, rect.width, rect.height, widget)
  {
    UniqueName(part, state, shadow, rect.width, rect.height, widget)
      + HexString8(gapSide.Value()) + HexString32(width) + HexString32(x)
  }

  function BoxKey(part: string, state: int, shadow: int, rect: Rect, widget: WidgetId, pmKey: string): (k: string)
    ensures |k| == |part| + 48 + |pmKey|
    ensures k[..|part| + 48] == UniqueName(part, state, shadow, rect.width, rect.height, widget)
    ensures k[|k| - |pmKey|..] == pmKey
  {
    UniqueName(part, state, shadow, rect.width, rect.height, widget) + pmKey
  }

  function HlineKey(part: string, state: int, rect: Rect, widget: WidgetId, x1: int, x2: int, y: int, pmKey: string): (k: string)
    ensures |k| == |part| + 48 + 24 + |pmKey|
    ensures k[..|part| + 48] == UniqueName(part, state, ShadowNone, rect.width, rect.height, widget)
    ensures k[|k| - |pmKey|..] == pmKey
  {
    UniqueName(part, state, ShadowNone, rect.width, rect.height, widget)
      + HexString32(x1) + HexString32(x2) + HexString32(y) + pmKey
  }

  function VlineKey(part: string, state: int, rect: Rect, widget: WidgetId, y1: int, y2: int, x: int, pmKey: string): (k: string)
    ensures |k| == |part| + 48 + 24 + |pmKey|
    ensures k[..|part| + 48] == UniqueName(part, state, ShadowNone, rect.width, rect.height, widget)
    ensures k[|k| - |pmKey|..] == pmKey
  {
    UniqueName(part, state, ShadowNone, rect.width, rect.height, widget)
      + HexString32(y1) + HexString32(y2) + HexString32(x) + pmKey
  }

  function ExpanderKey(part: string, state: int, rect: Rect, widget: WidgetId, expanderStyle: int, pmKey: string): (k: string)
    ensures |k| == |part| + 48 + 2 + |pmKey|
    ensures k[..|part| + 48] == UniqueName(part, state, ShadowNone, rect.width, rect.height, widget)
    ensures k[|k| - |pmKey|..] == pmKey
  {
    UniqueName(part, state, ShadowNone, rect.width, rect.height, widget) + HexString8(expanderStyle) + pmKey
  }

  function FocusKey(part: string, state: int, rect: Rect, widget: WidgetId, pmKey: string): (k: string)
    ensures |k| == |part| + 48 + |pmKey|
    ensures k[..|part| + 48] == UniqueName(part, state, ShadowNone, rect.width, rect.height, widget)
    ensures k[|k| - |pmKey|..] == pmKey
  {
    UniqueName(part, state, ShadowNone, rect.width, rect.height, widget) + pmKey
  }

  /** Keyed like paintBox: the resize grip's edge is not part of the key. */
  function ResizeGripKey(part: string, state: int, shadow: int, rect: Rect, widget: WidgetId, pmKey: string): (k: string)
    ensures |k| == |part| + 48 + |pmKey|
    ensures k[..|part| + 48] == UniqueName(part, state, shadow, rect.width, rect.height, widget)
    ensures k[|k| - |pmKey|..] == pmKey
  {
    UniqueName(part, state, shadow, rect.width, rect.height, widget) + pmKey
  }

  /** Without the widget, and with the size of the pixmap rectangle only. */
  function ArrowKey(part: string, state: int, shadow: int, rect: Rect, arrowType: int, pmKey: string): (k: string)
    ensures |k| == |part| + 48 + 2 + |pmKey|
    ensures k[..|part| + 48] == UniqueName(part, state, shadow, rect.width, rect.height, 0)
    ensures k[|k| - |pmKey|..] == pmKey
  {
    UniqueName(part, state, shadow, rect.width, rect.height) + HexString8(arrowType) + pmKey
  }

  function HandleKey(part: string, state: int, shadow: int, rect: Rect, orientation: int): (k: string)
    ensures |k| == |part| + 48 + 2
    ensures k[..|part| + 48] == UniqueName(part, state, shadow, rect.width, rect.height, 0)
  {
    UniqueName(part, state, shadow, rect.width, rect.height) + HexString8(orientation)
  }

  function SliderKey(part: string, state: int, shadow: int, rect: Rect, widget: WidgetId, pmKey: string): (k: string)
    ensures |k| == |part| + 48 + |pmKey|
    ensures k[..|part| + 48] == UniqueName(part, state, shadow, rect.width, rect.height, widget)
    ensures k[|k| - |pmKey|..] == pmKey
  {
    UniqueName(part, state, shadow, rect.width, rect.height, widget) + pmKey
  }

  function ShadowKey(part: string, state: int, shadow: int, rect: Rect, pmKey: string): (k: string)
    ensures |k| == |part| + 48 + |pmKey|
    ensures k[..|part| + 48] == UniqueName(part, state, shadow, rect.width, rect.height, 0)
    ensures k[|k| - |pmKey|..] == pmKey
  {
    UniqueName(part, state, shadow, rect.width, rect.height) + pmKey
  }

  function FlatBoxKey(part: string, state: int, shadow: int, rect: Rect, pmKey: string): (k: string)
    ensures |k| == |part| + 48 + |pmKey|
    ensures k[..|part| + 48] == UniqueName(part, state, shadow, rect.width, rect.height, 0)
    ensures k[|k| - |pmKey|..] == pmKey
  {
    UniqueName(part, state, shadow, rect.width, rect.height) + pmKey
  }

  function ExtensionKey(part: string, state: int, shadow: int, rect: Rect, widget: WidgetId, gapSide: PositionType): (k: string)
    ensures |k| == |part| + 48 + 2
    ensures k[..|part| + 48] == UniqueName(part, state, shadow, rect.width, rect.height, widget)
  {
    UniqueName(part, state, shadow, rect.width, rect.height, widget) + HexString8(gapSide.Value())
  }

  /** paintOption and paintCheckbox: the detail string, state, shadow and pixmap size only. */
  function IndicatorKey(detail: string, state: int, shadow: int, rect: Rect): (k: string)
    ensures |k| == |detail| + 48
    ensures k[..|detail| + 48] == UniqueName(detail, state, shadow, rect.width, rect.height, 0)
  {
    UniqueName(detail, state, shadow, rect.width, rect.height)
  }

  /**
   * paintShadow and paintFlatBox build the same key from the same
   * arguments, so with equal part, state, shadow, size and pmKey one may
   * draw the pixmap the other cached.
   */
  lemma ShadowAndFlatBoxKeysCoincide(part: string, state: int, shadow: int, rect: Rect, pmKey: string)
    ensures ShadowKey(part, state, shadow, rect, pmKey) == FlatBoxKey(part, state, shadow, rect, pmKey)
  {
  }

  /**
   * With a valid clip rectangle the arrow key depends on the clip
   * rectangle's size only: two arrows at different positions or of
   * different sizes inside equally sized clips share one cache entry,
   * although GTK is asked to draw them at different offsets.
   */
  lemma ArrowKeyIgnoresPlacement(clipRect: Rect, arrow1: Rect, arrow2: Rect, part: string, state: int, shadow: int,
                                 arrowType: int, pmKey: string)
    requires clipRect.IsValid()
    ensures var pl1 := PlaceIndicator(clipRect, arrow1);
      var pl2 := PlaceIndicator(clipRect, arrow2);
      && ArrowKey(part, state, shadow, pl1.rect, arrowType, pmKey) == ArrowKey(part, state, shadow, pl2.rect, arrowType, pmKey)
      && (arrow1.x != arrow2.x ==> pl1.xOffset != pl2.xOffset)
  {
  }

  /**
   * A pixmap is only produced once every request has been sent: one render
   * without alpha support, the renders over black and over white with it.
   */
  lemma RenderedAfterAllRequests(order: ByteOrder, alpha: bool, hflipped: bool, vflipped: bool,
                                 rect: Rect, call: GtkCall, style: StyleId, window: WidgetId, env: GtkEnv)
    requires rect.IsValid()
    requires RenderedPixmap(order, alpha, hflipped, vflipped, rect, call, style, window, env).Some?
    ensures IssuedRequests(alpha, rect, call, style, window, env)
         == if alpha then [GtkRequest(call, style, window, Black, rect.width, rect.height),
                           GtkRequest(call, style, window, White, rect.width, rect.height)]
            else [GtkRequest(call, style, window, StyleBackground, rect.width, rect.height)]
  {
  }

  /**
   * paintBoxGap keys frames by the side of their gap: frames that differ
   * only in the gap side never share a cached pixmap.
   */
  lemma BoxGapKeySeparatesGapSides(part: string, state: int, shadow: int, rect: Rect, widget: WidgetId,
                                   side1: PositionType, side2: PositionType, x: int, width: int)
    requires side1 != side2
    ensures BoxGapKey(part, state, shadow, rect, widget, side1, x, width) != BoxGapKey(part, state, shadow, rect, widget, side2, x, width)
  {
    var name := UniqueName(part, state, shadow, rect.width, rect.height, widget);
    var key1 := BoxGapKey(part, state, shadow, rect, widget, side1, x, width);
    var key2 := BoxGapKey(part, state, shadow, rect, widget, side2, x, width);
    if key1 == key2 {
      assert key1[|name|..|name| + 2] == HexString8(side1.Value());
      assert key2[|name|..|name| + 2] == HexString8(side2.Value());
      HexString8Injective(side1.Value(), side2.Value());
      assert false;
    }
  }

  /**
   * A paintBox key identifies the size of the rendered pixmap: two boxes
   * with the same part, state, shadow, widget and extra key share a cache
   * entry only when the pixmaps they render have the same size.
   */
  lemma BoxKeyIdentifiesSize(part: string, state: int, shadow: int, rect1: Rect, rect2: Rect, widget: WidgetId, pmKey: string)
    requires 0 <= state < Two32 && 0 <= shadow < Two32
    requires IsInt32(rect1.width) && IsInt32(rect1.height) && IsInt32(rect2.width) && IsInt32(rect2.height)
    requires BoxKey(part, state, shadow, rect1, widget, pmKey) == BoxKey(part, state, shadow, rect2, widget, pmKey)
    ensures rect1.Dimensions() == rect2.Dimensions()
  {
    var name1 := UniqueName(part, state, shadow, rect1.width, rect1.height, widget);
    var name2 := UniqueName(part, state, shadow, rect2.width, rect2.height, widget);
    UniqueNameLayout(part, state, shadow, rect1.width, rect1.height, widget);
    UniqueNameLayout(part, state, shadow, rect2.width, rect2.height, widget);
    assert name1 == (name1 + pmKey)[..|name1|];
    assert name2 == (name2 + pmKey)[..|name2|];
    UniqueNameInjective(part, state, shadow, rect1.width, rect1.height, widget,
                        part, state, shadow, rect2.width, rect2.height, widget);
  }

  /**
   * Two tall boxes of the same width whose heights both exceed the tiling
   * threshold are rendered at the same 65-row height and share one cache
   * entry, whatever their heights.
   */
  lemma TallBoxesShareCacheEntry(part: string, state: int, shadow: int, paint1: Rect, paint2: Rect, widget: WidgetId, pmKey: string)
    requires paint1.width == paint2.width
    requires BoxTiles(paint1.width, paint1.height) && BoxTiles(paint2.width, paint2.height)
    ensures var rect1 := paint1.(height := BoxCacheHeight(paint1.width, paint1.height));
      var rect2 := paint2.(height := BoxCacheHeight(paint2.width, paint2.height));
      && rect1.height == rect2.height == 2 * BoxBorder + 1
      && BoxKey(part, state, shadow, rect1, widget, pmKey) == BoxKey(part, state, shadow, rect2, widget, pmKey)
  {
  }

  // ---- the painter ---------------------------------------------------------

  class Gtk2Painter {
    /** The QGtkPainter state this painter inherits. */
    const base: GtkPainter
    /** m_window, the GtkWindow whose window the styles are attached to. */
    const window: WidgetId
    /** The host byte order, Q_BYTE_ORDER. */
    const order: ByteOrder
    /** Every drawing request sent to GTK so far. */
    ghost var requests: seq<GtkRequest>

    constructor(window: WidgetId, order: ByteOrder)
      ensures fresh(base) && base.State() == ResetState(null)
      ensures this.window == window && this.order == order && requests == []
    {
      base := new GtkPainter();
      this.window := window;
      this.order := order;
      requests := [];
    }

    /** The pixmap DRAW_TO_CACHE produces with the painter's current flags. */
    function Render(rect: Rect, call: GtkCall, style: StyleId, env: GtkEnv): Option<Pixmap>
      requires rect.IsValid()
      reads base
    {
      RenderedPixmap(order, base.alpha, base.hflipped, base.vflipped, rect, call, style, window, env)
    }

    /** The cache protocol of one paint call on the cache contents `entries`. */
    function Outcome(entries: map<string, Pixmap>, key: string, rect: Rect, call: GtkCall, style: StyleId, env: GtkEnv): CacheStep
      requires rect.IsValid()
      reads base
    {
      Step(base.usePixmapCache, entries, key, Render(rect, call, style, env))
    }

    /** The GTK requests a paint call with cache outcome s sends. */
    function Issued(s: CacheStep, rect: Rect, call: GtkCall, style: StyleId, env: GtkEnv): seq<GtkRequest>
      reads base
    {
      if s.rendered then IssuedRequests(base.alpha, rect, call, style, window, env) else []
    }

    /**
     * renderTheme: converts the first rect.width * rect.height pixels of
     * bdata in place from GTK's layout to Qt's, recovering alpha from wdata
     * when alpha support is on, and wraps the result in a pixmap.
     */
    method RenderTheme(bdata: array<Byte>, wdata: array?<Byte>, rect: Rect) returns (pm: Pixmap)
      requires rect.IsValid() && 4 * (rect.width * rect.height) <= bdata.Length
      requires base.alpha ==> wdata != null && wdata != bdata && 4 * (rect.width * rect.height) <= wdata.Length
      modifies bdata
      ensures base.alpha ==> bdata[..] == ConvertBuffer(order, true, old(bdata[..]), wdata[..], rect.width * rect.height)
      ensures !base.alpha ==> bdata[..] == ConvertBuffer(order, false, old(bdata[..]), [], rect.width * rect.height)
      ensures pm == Pixmap(rect.width, rect.height, bdata[..], base.alpha, base.hflipped, base.vflipped)
    {
      ghost var b := bdata[..];
      ghost var w: seq<Byte> := if base.alpha then wdata[..] else [];
      var pixels := rect.width * rect.height;
      var bytecount := pixels * 4;
      var index := 0;
      while index < bytecount
        invariant 0 <= index <= bytecount && index % 4 == 0
        invariant forall i :: 0 <= i < index ==> bdata[i] == ConvertedByte(order, base.alpha, b, w, i / 4, i % 4)
        invariant forall i :: index <= i < bdata.Length ==> bdata[i] == b[i]
      {
        ConvertPixel(bdata, wdata, index / 4, b, w);
        index := index + 4;
      }
      assert bdata[..] == ConvertBuffer(order, base.alpha, b, w, pixels);
      pm := Pixmap(rect.width, rect.height, bdata[..], base.alpha, base.hflipped, base.vflipped);
    }

    /** One pass of renderTheme's loop: pixel p, whose bytes start at 4 * p. */
    method ConvertPixel(bdata: array<Byte>, wdata: array?<Byte>, p: nat, ghost b: seq<Byte>, ghost w: seq<Byte>)
      requires 4 * p + 4 <= bdata.Length && |b| == bdata.Length
      requires base.alpha ==> wdata != null && wdata != bdata && 4 * p + 4 <= wdata.Length && w == wdata[..]
      requires forall i :: 4 * p <= i < 4 * p + 4 ==> bdata[i] == b[i]
      modifies bdata
      ensures forall i :: 0 <= i < 4 * p ==> bdata[i] == old(bdata[i])
      ensures forall i :: 4 * p + 4 <= i < bdata.Length ==> bdata[i] == old(bdata[i])
      ensures forall i :: 4 * p <= i < 4 * p + 4 ==> bdata[i] == ConvertedByte(order, base.alpha, b, w, i / 4, i % 4)
    {
      var index := 4 * p;
      var val := bdata[index + GtkBlue];
      if base.alpha {
        var alphaval := Max(bdata[index + GtkBlue] as int - wdata[index + GtkBlue] as int,
                            bdata[index + GtkGreen] as int - wdata[index + GtkGreen] as int);
        alphaval := Max(alphaval, bdata[index + GtkRed] as int - wdata[index + GtkRed] as int) + 255;
        bdata[index + QtAlpha(order)] := alphaval % 256;
      }
      bdata[index + QtRed(order)] := bdata[index + GtkRed];
      bdata[index + QtGreen(order)] := bdata[index + GtkGreen];
      bdata[index + QtBlue(order)] := val;
      forall i | 4 * p <= i < 4 * p + 4
        ensures bdata[i] == ConvertedByte(order, base.alpha, b, w, i / 4, i % 4)
      {
        assert i / 4 == p && i % 4 == i - index;
        QtOffsetCases(order, i - index);
      }
    }

    /**
     * DRAW_TO_CACHE: renders `call` into a new off-screen pixmap of the
     * rectangle's size and converts it.  None stands for the macro's early
     * returns, which end the whole paint call.
     */
    method DrawToCache(rect: Rect, call: GtkCall, style: StyleId, env: GtkEnv) returns (cache: Option<Pixmap>)
      requires rect.IsValid()
      modifies this`requests
      ensures cache == Render(rect, call, style, env)
      ensures requests == old(requests) + IssuedRequests(base.alpha, rect, call, style, window, env)
    {
      if rect.width > WidgetSizeMax || rect.height > WidgetSizeMax {
        return None;
      }
      if !env.pixmapAllocates {
        return None;
      }
      var first := GtkRequest(call, style, window, FirstBackground(base.alpha), rect.width, rect.height);
      requests := requests + [first];
      if !env.pixbufAllocates {
        return None;
      }
      var count := rect.width * rect.height * 4;
      var black := Readback(env, first, count);
      var bdata := new Byte[count](i requires 0 <= i < count => black[i]);
      assert bdata[..] == black;
      if base.alpha {
        var second := GtkRequest(call, style, window, White, rect.width, rect.height);
        requests := requests + [second];
        if !env.whitePixbufAllocates {
          return None;
        }
        var white := Readback(env, second, count);
        var wdata := new Byte[count](i requires 0 <= i < count => white[i]);
        assert wdata[..] == white;
        var pm := RenderTheme(bdata, wdata, rect);
        cache := Some(pm);
      } else {
        var pm := RenderTheme(bdata, null, rect);
        cache := Some(pm);
      }
    }

    /**
     * The protocol around DRAW_TO_CACHE: look the key up when the pixmap
     * cache is in use; on a miss (or with the cache off) render, and insert
     * the rendered pixmap when the cache is in use.
     */
    method CachedPixmap(pixmaps: PixmapCache, key: string, rect: Rect, call: GtkCall, style: StyleId, env: GtkEnv)
      returns (cache: Option<Pixmap>)
      requires rect.IsValid()
      modifies pixmaps, this`requests
      ensures var s := Outcome(old(pixmaps.entries), key, rect, call, style, env);
        && cache == s.drawn
        && pixmaps.entries == s.entries
        && requests == old(requests) + Issued(s, rect, call, style, env)
    {
      var found: Option<Pixmap> := None;
      if base.usePixmapCache {
        found := pixmaps.Find(key);
      }
      if found.Some? {
        return found;
      }
      cache := DrawToCache(rect, call, style, env);
      if cache.None? {
        return;
      }
      if base.usePixmapCache {
        pixmaps.Insert(key, cache.value);
      }
    }

    /** The effect of a paint call whose cache step is s and which draws `draws` through the Qt painter. */
    ghost predicate Painted(s: CacheStep, pixmaps: PixmapCache, oldRequests: seq<GtkRequest>, oldDrawn: seq<DrawCall>,
                            rect: Rect, call: GtkCall, style: StyleId, env: GtkEnv, draws: seq<DrawCall>)
      requires base.painter != null
      reads this, base, pixmaps, base.painter
    {
      && pixmaps.entries == s.entries
      && requests == oldRequests + Issued(s, rect, call, style, env)
      && base.painter.drawn == oldDrawn + draws
    }

    /** The single draw of the pixmap at `at`, if the paint call got one. */
    function Blit(s: CacheStep, at: Point): seq<DrawCall>
    {
      if s.drawn.Some? then [DrawPixmapAt(at, s.drawn.value)] else []
    }

    /** The three strip draws of a reduced-height pixmap stretched over paintRect. */
    function Stretched(s: CacheStep, paintRect: Rect, border: int): seq<DrawCall>
      requires 0 < border && 2 * border < paintRect.height
    {
      if s.drawn.None? then []
      else
        var pm := s.drawn.value;
        var st := TileStrips(paintRect, border, Size(pm.width, pm.height));
        [DrawPixmapPart(st.top, pm, st.topSource), DrawTiledRow(st.middle, pm, st.tileRow), DrawPixmapPart(st.bottom, pm, st.bottomSource)]
    }

    /** The shape shared by the paint methods that cache and draw at the rectangle's corner. */
    method PaintAt(pixmaps: PixmapCache, key: string, rect: Rect, call: GtkCall, style: StyleId, env: GtkEnv)
      requires base.painter != null && rect.IsValid()
      modifies pixmaps, base.painter, this`requests
      ensures var s := Outcome(old(pixmaps.entries), key, rect, call, style, env);
        Painted(s, pixmaps, old(requests), old(base.painter.drawn), rect, call, style, env, Blit(s, rect.TopLeft()))
    {
      var cache := CachedPixmap(pixmaps, key, rect, call, style, env);
      if cache.Some? {
        base.painter.Draw(DrawPixmapAt(rect.TopLeft(), cache.value));
      }
    }

    /** paintBox and paintBoxGap after their key is built: stretched when the cached height was reduced. */
    method PaintStretched(pixmaps: PixmapCache, key: string, paintRect: Rect, rect: Rect, border: int,
                          call: GtkCall, style: StyleId, env: GtkEnv)
      requires base.painter != null && rect.IsValid()
      requires rect.height != paintRect.height ==> 0 < border && 2 * border < paintRect.height
      modifies pixmaps, base.painter, this`requests
      ensures var s := Outcome(old(pixmaps.entries), key, rect, call, style, env);
        Painted(s, pixmaps, old(requests), old(base.painter.drawn), rect, call, style, env,
                if rect.height != paintRect.height then Stretched(s, paintRect, border) else Blit(s, paintRect.TopLeft()))
    {
      var cache := CachedPixmap(pixmaps, key, rect, call, style, env);
      if cache.None? {
        return;
      }
      var pm := cache.value;
      if rect.height != paintRect.height {
        var st := TileStrips(paintRect, border, Size(pm.width, pm.height));
        base.painter.Draw(DrawPixmapPart(st.top, pm, st.topSource));
        base.painter.Draw(DrawTiledRow(st.middle, pm, st.tileRow));
        base.painter.Draw(DrawPixmapPart(st.bottom, pm, st.bottomSource));
      } else {
        base.painter.Draw(DrawPixmapAt(paintRect.TopLeft(), pm));
      }
    }

    // ---- the paint methods -------------------------------------------------
    // Each returns at once for an invalid rectangle, leaving the cache, the
    // Qt painter and GTK untouched.

    method PaintBoxGap(pixmaps: PixmapCache, widget: WidgetId, part: string, paintRect: Rect, state: int, shadow: int,
                       gapSide: PositionType, x: int, width: int, style: StyleId, env: GtkEnv)
      requires base.painter != null
      modifies pixmaps, base.painter, this`requests
      ensures !paintRect.IsValid() ==> unchanged(pixmaps, base.painter) && requests == old(requests)
      ensures paintRect.IsValid() ==>
        var rect := paintRect.(height := BoxGapCacheHeight(paintRect.height, gapSide));
        var call := BoxGapCall(state, shadow, widget, part, 0, 0, rect.width, rect.height, gapSide, x, width);
        var s := Outcome(old(pixmaps.entries), BoxGapKey(part, state, shadow, rect, widget, gapSide, x, width), rect, call, style, env);
        Painted(s, pixmaps, old(requests), old(base.painter.drawn), rect, call, style, env,
                if rect.height != paintRect.height then Stretched(s, paintRect, BoxGapBorder) else Blit(s, paintRect.TopLeft()))
    {
      if !paintRect.IsValid() {
        return;
      }
      var rect := paintRect.(height := BoxGapCacheHeight(paintRect.height, gapSide));
      var key := BoxGapKey(part, state, shadow, rect, widget, gapSide, x, width);
      var call := BoxGapCall(state, shadow, widget, part, 0, 0, rect.width, rect.height, gapSide, x, width);
      PaintStretched(pixmaps, key, paintRect, rect, BoxGapBorder, call, style, env);
    }

    method PaintBox(pixmaps: PixmapCache, widget: WidgetId, part: string, paintRect: Rect, state: int, shadow: int,
                    style: StyleId, pmKey: string, env: GtkEnv)
      requires base.painter != null
      modifies pixmaps, base.painter, this`requests
      ensures !paintRect.IsValid() ==> unchanged(pixmaps, base.painter) && requests == old(requests)
      ensures paintRect.IsValid() ==>
        var rect := paintRect.(height := BoxCacheHeight(paintRect.width, paintRect.height));
        var call := BoxCall(state, shadow, widget, part, 0, 0, rect.width, rect.height);
        var s := Outcome(old(pixmaps.entries), BoxKey(part, state, shadow, rect, widget, pmKey), rect, call, style, env);
        Painted(s, pixmaps, old(requests), old(base.painter.drawn), rect, call, style, env,
                if rect.height != paintRect.height then Stretched(s, paintRect, BoxBorder) else Blit(s, paintRect.TopLeft()))
    {
      if !paintRect.IsValid() {
        return;
      }
      var rect := paintRect.(height := BoxCacheHeight(paintRect.width, paintRect.height));
      var key := BoxKey(part, state, shadow, rect, widget, pmKey);
      var call := BoxCall(state, shadow, widget, part, 0, 0, rect.width, rect.height);
      PaintStretched(pixmaps, key, paintRect, rect, BoxBorder, call, style, env);
    }

    method PaintHline(pixmaps: PixmapCache, widget: WidgetId, part: string, rect: Rect, state: int,
                      style: StyleId, x1: int, x2: int, y: int, pmKey: string, env: GtkEnv)
      requires base.painter != null
      modifies pixmaps, base.painter, this`requests
      ensures !rect.IsValid() ==> unchanged(pixmaps, base.painter) && requests == old(requests)
      ensures rect.IsValid() ==>
        var call := HlineCall(state, widget, part, x1, x2, y);
        var s := Outcome(old(pixmaps.entries), HlineKey(part, state, rect, widget, x1, x2, y, pmKey), rect, call, style, env);
        Painted(s, pixmaps, old(requests), old(base.painter.drawn), rect, call, style, env, Blit(s, rect.TopLeft()))
    {
      if !rect.IsValid() {
        return;
      }
      PaintAt(pixmaps, HlineKey(part, state, rect, widget, x1, x2, y, pmKey), rect, HlineCall(state, widget, part, x1, x2, y), style, env);
    }

    method PaintVline(pixmaps: PixmapCache, widget: WidgetId, part: string, rect: Rect, state: int,
                      style: StyleId, y1: int, y2: int, x: int, pmKey: string, env: GtkEnv)
      requires base.painter != null
      modifies pixmaps, base.painter, this`requests
      ensures !rect.IsValid() ==> unchanged(pixmaps, base.painter) && requests == old(requests)
      ensures rect.IsValid() ==>
        var call := VlineCall(state, widget, part, y1, y2, x);
        var s := Outcome(old(pixmaps.entries), VlineKey(part, state, rect, widget, y1, y2, x, pmKey), rect, call, style, env);
        Painted(s, pixmaps, old(requests), old(base.painter.drawn), rect, call, style, env, Blit(s, rect.TopLeft()))
    {
      if !rect.IsValid() {
        return;
      }
      PaintAt(pixmaps, VlineKey(part, state, rect, widget, y1, y2, x, pmKey), rect, VlineCall(state, widget, part, y1, y2, x), style, env);
    }

    /** The expander is drawn centred: GTK gets half the rectangle's width and height as its position. */
    method PaintExpander(pixmaps: PixmapCache, widget: WidgetId, part: string, rect: Rect, state: int,
                         expanderStyle: int, style: StyleId, pmKey: string, env: GtkEnv)
      requires base.painter != null
      modifies pixmaps, base.painter, this`requests
      ensures !rect.IsValid() ==> unchanged(pixmaps, base.painter) && requests == old(requests)
      ensures rect.IsValid() ==>
        var call := ExpanderCall(state, widget, part, rect.width / 2, rect.height / 2, expanderStyle);
        var s := Outcome(old(pixmaps.entries), ExpanderKey(part, state, rect, widget, expanderStyle, pmKey), rect, call, style, env);
        Painted(s, pixmaps, old(requests), old(base.painter.drawn), rect, call, style, env, Blit(s, rect.TopLeft()))
    {
      if !rect.IsValid() {
        return;
      }
      var call := ExpanderCall(state, widget, part, rect.width / 2, rect.height / 2, expanderStyle);
      PaintAt(pixmaps, ExpanderKey(part, state, rect, widget, expanderStyle, pmKey), rect, call, style, env);
    }

    method PaintFocus(pixmaps: PixmapCache, widget: WidgetId, part: string, rect: Rect, state: int,
                      style: StyleId, pmKey: string, env: GtkEnv)
      requires base.painter != null
      modifies pixmaps, base.painter, this`requests
      ensures !rect.IsValid() ==> unchanged(pixmaps, base.painter) && requests == old(requests)
      ensures rect.IsValid() ==>
        var call := FocusCall(state, widget, part, 0, 0, rect.width, rect.height);
        var s := Outcome(old(pixmaps.entries), FocusKey(part, state, rect, widget, pmKey), rect, call, style, env);
        Painted(s, pixmaps, old(requests), old(base.painter.drawn), rect, call, style, env, Blit(s, rect.TopLeft()))
    {
      if !rect.IsValid() {
        return;
      }
      PaintAt(pixmaps, FocusKey(part, state, rect, widget, pmKey), rect, FocusCall(state, widget, part, 0, 0, rect.width, rect.height), style, env);
    }

    method PaintResizeGrip(pixmaps: PixmapCache, widget: WidgetId, part: string, rect: Rect, state: int, shadow: int,
                           edge: int, style: StyleId, pmKey: string, env: GtkEnv)
      requires base.painter != null
      modifies pixmaps, base.painter, this`requests
      ensures !rect.IsValid() ==> unchanged(pixmaps, base.painter) && requests == old(requests)
      ensures rect.IsValid() ==>
        var call := ResizeGripCall(state, widget, part, edge, 0, 0, rect.width, rect.height);
        var s := Outcome(old(pixmaps.entries), ResizeGripKey(part, state, shadow, rect, widget, pmKey), rect, call, style, env);
        Painted(s, pixmaps, old(requests), old(base.painter.drawn), rect, call, style, env, Blit(s, rect.TopLeft()))
    {
      if !rect.IsValid() {
        return;
      }
      var call := ResizeGripCall(state, widget, part, edge, 0, 0, rect.width, rect.height);
      PaintAt(pixmaps, ResizeGripKey(part, state, shadow, rect, widget, pmKey), rect, call, style, env);
    }

    /**
     * The arrow is rendered into a pixmap of the clip rectangle's size when
     * the painter has a valid clip rectangle, at the arrow's offset inside
     * it; the pixmap is drawn at the clip rectangle's corner.
     */
    method PaintArrow(pixmaps: PixmapCache, widget: WidgetId, part: string, arrowRect: Rect, arrowType: int,
                      state: int, shadow: int, fill: bool, style: StyleId, pmKey: string, env: GtkEnv)
      requires base.painter != null
      modifies pixmaps, base.painter, this`requests
      ensures var pl := PlaceIndicator(base.clipRect, arrowRect);
        && (!pl.rect.IsValid() ==> unchanged(pixmaps, base.painter) && requests == old(requests))
        && (pl.rect.IsValid() ==>
          var call := ArrowCall(state, shadow, pl.gtkClip, widget, part, arrowType, fill, pl.xOffset, pl.yOffset,
                                arrowRect.width, arrowRect.height);
          var s := Outcome(old(pixmaps.entries), ArrowKey(part, state, shadow, pl.rect, arrowType, pmKey), pl.rect, call, style, env);
          Painted(s, pixmaps, old(requests), old(base.painter.drawn), pl.rect, call, style, env, Blit(s, pl.rect.TopLeft())))
    {
      var pl := PlaceIndicator(base.clipRect, arrowRect);
      if !pl.rect.IsValid() {
        return;
      }
      var call := ArrowCall(state, shadow, pl.gtkClip, widget, part, arrowType, fill, pl.xOffset, pl.yOffset,
                            arrowRect.width, arrowRect.height);
      PaintAt(pixmaps, ArrowKey(part, state, shadow, pl.rect, arrowType, pmKey), pl.rect, call, style, env);
    }

    method PaintHandle(pixmaps: PixmapCache, widget: WidgetId, part: string, rect: Rect, state: int, shadow: int,
                       orientation: int, style: StyleId, env: GtkEnv)
      requires base.painter != null
      modifies pixmaps, base.painter, this`requests
      ensures !rect.IsValid() ==> unchanged(pixmaps, base.painter) && requests == old(requests)
      ensures rect.IsValid() ==>
        var call := HandleCall(state, shadow, widget, part, 0, 0, rect.width, rect.height, orientation);
        var s := Outcome(old(pixmaps.entries), HandleKey(part, state, shadow, rect, orientation), rect, call, style, env);
        Painted(s, pixmaps, old(requests), old(base.painter.drawn), rect, call, style, env, Blit(s, rect.TopLeft()))
    {
      if !rect.IsValid() {
        return;
      }
      var call := HandleCall(state, shadow, widget, part, 0, 0, rect.width, rect.height, orientation);
      PaintAt(pixmaps, HandleKey(part, state, shadow, rect, orientation), rect, call, style, env);
    }

    method PaintSlider(pixmaps: PixmapCache, widget: WidgetId, part: string, rect: Rect, state: int, shadow: int,
                       style: StyleId, orientation: int, pmKey: string, env: GtkEnv)
      requires base.painter != null
      modifies pixmaps, base.painter, this`requests
      ensures !rect.IsValid() ==> unchanged(pixmaps, base.painter) && requests == old(requests)
      ensures rect.IsValid() ==>
        var call := SliderCall(state, shadow, widget, part, 0, 0, rect.width, rect.height, orientation);
        var s := Outcome(old(pixmaps.entries), SliderKey(part, state, shadow, rect, widget, pmKey), rect, call, style, env);
        Painted(s, pixmaps, old(requests), old(base.painter.drawn), rect, call, style, env, Blit(s, rect.TopLeft()))
    {
      if !rect.IsValid() {
        return;
      }
      var call := SliderCall(state, shadow, widget, part, 0, 0, rect.width, rect.height, orientation);
      PaintAt(pixmaps, SliderKey(part, state, shadow, rect, widget, pmKey), rect, call, style, env);
    }

    method PaintShadow(pixmaps: PixmapCache, widget: WidgetId, part: string, rect: Rect, state: int, shadow: int,
                       style: StyleId, pmKey: string, env: GtkEnv)
      requires base.painter != null
      modifies pixmaps, base.painter, this`requests
      ensures !rect.IsValid() ==> unchanged(pixmaps, base.painter) && requests == old(requests)
      ensures rect.IsValid() ==>
        var call := ShadowCall(state, shadow, widget, part, 0, 0, rect.width, rect.height);
        var s := Outcome(old(pixmaps.entries), ShadowKey(part, state, shadow, rect, pmKey), rect, call, style, env);
        Painted(s, pixmaps, old(requests), old(base.painter.drawn), rect, call, style, env, Blit(s, rect.TopLeft()))
    {
      if !rect.IsValid() {
        return;
      }
      var call := ShadowCall(state, shadow, widget, part, 0, 0, rect.width, rect.height);
      PaintAt(pixmaps, ShadowKey(part, state, shadow, rect, pmKey), rect, call, style, env);
    }

    method PaintFlatBox(pixmaps: PixmapCache, widget: WidgetId, part: string, rect: Rect, state: int, shadow: int,
                        style: StyleId, pmKey: string, env: GtkEnv)
      requires base.painter != null
      modifies pixmaps, base.painter, this`requests
      ensures !rect.IsValid() ==> unchanged(pixmaps, base.painter) && requests == old(requests)
      ensures rect.IsValid() ==>
        var call := FlatBoxCall(state, shadow, widget, part, 0, 0, rect.width, rect.height);
        var s := Outcome(old(pixmaps.entries), FlatBoxKey(part, state, shadow, rect, pmKey), rect, call, style, env);
        Painted(s, pixmaps, old(requests), old(base.painter.drawn), rect, call, style, env, Blit(s, rect.TopLeft()))
    {
      if !rect.IsValid() {
        return;
      }
      var call := FlatBoxCall(state, shadow, widget, part, 0, 0, rect.width, rect.height);
      PaintAt(pixmaps, FlatBoxKey(part, state, shadow, rect, pmKey), rect, call, style, env);
    }

    method PaintExtention(pixmaps: PixmapCache, widget: WidgetId, part: string, rect: Rect, state: int, shadow: int,
                          gapSide: PositionType, style: StyleId, env: GtkEnv)
      requires base.painter != null
      modifies pixmaps, base.painter, this`requests
      ensures !rect.IsValid() ==> unchanged(pixmaps, base.painter) && requests == old(requests)
      ensures rect.IsValid() ==>
        var call := ExtensionCall(state, shadow, widget, part, 0, 0, rect.width, rect.height, gapSide);
        var s := Outcome(old(pixmaps.entries), ExtensionKey(part, state, shadow, rect, widget, gapSide), rect, call, style, env);
        Painted(s, pixmaps, old(requests), old(base.painter.drawn), rect, call, style, env, Blit(s, rect.TopLeft()))
    {
      if !rect.IsValid() {
        return;
      }
      var call := ExtensionCall(state, shadow, widget, part, 0, 0, rect.width, rect.height, gapSide);
      PaintAt(pixmaps, ExtensionKey(part, state, shadow, rect, widget, gapSide), rect, call, style, env);
    }

    method PaintOption(pixmaps: PixmapCache, widget: WidgetId, radioRect: Rect, state: int, shadow: int,
                       style: StyleId, detail: string, env: GtkEnv)
      requires base.painter != null
      modifies pixmaps, base.painter, this`requests
      ensures var pl := PlaceIndicator(base.clipRect, radioRect);
        && (!pl.rect.IsValid() ==> unchanged(pixmaps, base.painter) && requests == old(requests))
        && (pl.rect.IsValid() ==>
          var call := OptionCall(state, shadow, pl.gtkClip, widget, detail, pl.xOffset, pl.yOffset, radioRect.width, radioRect.height);
          var s := Outcome(old(pixmaps.entries), IndicatorKey(detail, state, shadow, pl.rect), pl.rect, call, style, env);
          Painted(s, pixmaps, old(requests), old(base.painter.drawn), pl.rect, call, style, env, Blit(s, pl.rect.TopLeft())))
    {
      var pl := PlaceIndicator(base.clipRect, radioRect);
      if !pl.rect.IsValid() {
        return;
      }
      var call := OptionCall(state, shadow, pl.gtkClip, widget, detail, pl.xOffset, pl.yOffset, radioRect.width, radioRect.height);
      PaintAt(pixmaps, IndicatorKey(detail, state, shadow, pl.rect), pl.rect, call, style, env);
    }

    method PaintCheckbox(pixmaps: PixmapCache, widget: WidgetId, checkRect: Rect, state: int, shadow: int,
                         style: StyleId, detail: string, env: GtkEnv)
      requires base.painter != null
      modifies pixmaps, base.painter, this`requests
      ensures var pl := PlaceIndicator(base.clipRect, checkRect);
        && (!pl.rect.IsValid() ==> unchanged(pixmaps, base.painter) && requests == old(requests))
        && (pl.rect.IsValid() ==>
          var call := CheckCall(state, shadow, pl.gtkClip, widget, detail, pl.xOffset, pl.yOffset, checkRect.width, checkRect.height);
          var s := Outcome(old(pixmaps.entries), IndicatorKey(detail, state, shadow, pl.rect), pl.rect, call, style, env);
          Painted(s, pixmaps, old(requests), old(base.painter.drawn), pl.rect, call, style, env, Blit(s, pl.rect.TopLeft())))
    {
      var pl := PlaceIndicator(base.clipRect, checkRect);
      if !pl.rect.IsValid() {
        return;
      }
      var call := CheckCall(state, shadow, pl.gtkClip, widget, detail, pl.xOffset, pl.yOffset, checkRect.width, checkRect.height);
      PaintAt(pixmaps, IndicatorKey(detail, state, shadow, pl.rect), pl.rect, call, style, env);
    }
  }
}
