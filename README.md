# qt6gtk2 — a Dafny model of the GTK2 painting bridge

qt6gtk2 draws Qt widgets with the current GTK2 theme. Each Qt paint request
becomes one `gtk_paint_*` call on an off-screen GDK pixmap. The bytes read
back from GTK are rewritten into Qt's ARGB32 layout. When alpha support is
on, the alpha channel is recovered from two renders, one over black and one
over white. The resulting pixmap is cached in `QPixmapCache` under a key
describing the request, and then drawn through the Qt painter. Tall boxes
are rendered at a reduced height and stretched back in three strips.

This project models that layer and proves its properties:

- `gtk_global.dfy` (`GtkGlobal`): the GTK and Qt byte offsets of a pixel, for either host byte order.
- `pixel_format.dfy` (`PixelFormat`): what `renderTheme` computes, stated on byte sequences: alpha recovery and channel moves.
- `geometry.dfy` (`Geometry`): `QRect`, `QSize`, `QWIDGETSIZE_MAX` and 32-bit wrap-around.
- `hex_string.dfy` (`HexString`): fixed-width hex encoding of 8-, 32- and 64-bit values, with its injectivity.
- `gtk_painter.dfy` (`GtkPainter`): the `QGtkPainter` state, `reset`, the setters and `uniqueName`.
- `pixmap_cache.dfy` (`PixmapCache`): `QPixmapCache` as a map, and the find/render/insert step every paint method follows.
- `qt_painter.dfy` (`QtPainting`): the Qt painter as a log of draw calls.
- `paint_geometry.dfy` (`PaintGeometry`): the reduced cache heights, the three strips, and where a clipped indicator lands.
- `gtk2_painter.dfy` (`Gtk2Painter`): `QGtk2Painter` itself:
  - `renderTheme` as an in-place array loop;
  - `DRAW_TO_CACHE` and its abort paths;
  - the fifteen `paint*` methods;
  - their cache keys.
- `gtk_style_private.dfy` (`GtkStylePrivate`): `QHashableLatin1Literal` and the lazily created widget map.
- `gtk2_theme.dfy` (`Gtk2Theme`): theme hints, the font-name fallback and the native dialogs.
- `theme_plugin.dfy` (`ThemePlugin`) and `style_plugin.dfy` (`StylePlugin`): which keys create the theme and the style.

GTK is foreign code. A paint method's effect on GTK is the list of drawing
requests it sends (`Gtk2Painter.requests`). What GTK does in return is a
parameter, `GtkEnv`:

- whether each allocation succeeds;
- which bytes each request leaves in the read-back buffer.

Every paint method is proved to follow the cache step (`PixmapCache.Step`)
on the pixmap `DRAW_TO_CACHE` would produce (`Gtk2Painter.RenderedPixmap`).
The proof covers the cache afterwards, the GTK requests sent and the draws
issued through the Qt painter.

Two places where the model follows the code:

- **Alpha wraps.** The recovered alpha is `max(ΔB, ΔG, ΔR) + 255` stored into a byte, so it wraps modulo 256 and is never clamped. A black render brighter than the white one gives a small alpha, not 255 (`PixelFormat.AlphaWrapsWhenBlackIsBrighter`).
- **Corrected paintBox area test.** `paintBox` tests the area of a box as a 32-bit `int` product. The model uses the corrected test; the code as written is kept beside it (see Findings).

## Model

| member | source | states |
|---|---|---|
| GtkGlobal.GtkLayoutIsPermutation | src/qt6gtk2-style/qgtkglobal_p.h:61-64 | GTK's pixel bytes are blue 0, green 1, red 2, alpha 3; each byte is named exactly once |
| GtkGlobal.QtLayoutIsPermutation | src/qt6gtk2-style/qgtkglobal_p.h:50-60 | Qt's offsets are R0 G1 B2 A3 on little-endian and A0 B1 G2 R3 on big-endian; each order names every byte exactly once |
| GtkGlobal.LittleEndianSwapsRedAndBlue | src/qt6gtk2-style/qgtkglobal_p.h:56-64 | on little-endian, green and alpha keep their offset while red and blue trade places |
| GtkGlobal.BigEndianAlphaAliasesGtkBlue | src/qt6gtk2-style/qgtkglobal_p.h:50-64 | on big-endian, Qt's alpha byte is GTK's blue byte, so blue must be saved before alpha is written |
| Geometry.WrapInt32 | src/qt6gtk2-style/qgtk2painter.cpp:191-194 | the value a 32-bit `int` holds is in range, congruent to the true value mod 2^32, and equal to it when it fits |
| Geometry.NullRectIsInvalid | src/qt6gtk2-style/qgtkpainter.cpp:45 | the null rectangle `QRect()` that reset installs is not a valid clip rectangle |
| PixelFormat.AlphaOpaqueWhenRendersAgree | src/qt6gtk2-style/qgtk2painter.cpp:44-48 | a pixel GTK draws identically over black and white gets alpha 255 |
| PixelFormat.AlphaWithoutWrap | src/qt6gtk2-style/qgtk2painter.cpp:44-48 | when the black render is nowhere brighter, alpha is 255 plus the largest (non-positive) black-minus-white difference |
| PixelFormat.AlphaWrapsWhenBlackIsBrighter | src/qt6gtk2-style/qgtk2painter.cpp:44-48 | when some black channel is brighter, the byte wraps to that difference minus 1 |
| PixelFormat.ConvertBufferChannels | src/qt6gtk2-style/qgtk2painter.cpp:41-53 | for every converted pixel, Qt's red, green and blue bytes hold GTK's red, green and blue bytes; Qt's alpha byte holds the recovered alpha with alpha on and is untouched with it off; the length is kept |
| PixelFormat.ConvertBufferKeepsTail | src/qt6gtk2-style/qgtk2painter.cpp:41-42 | no byte past width*height*4 is changed |
| PixelFormat.OpaqueConversionIgnoresWhite | src/qt6gtk2-style/qgtk2painter.cpp:44 | with alpha off, the white buffer is never consulted |
| HexString.HexInjective | src/qt6gtk2-style/qgtkpainter.cpp:52-57 | fixed-width hex text determines the value it encodes |
| HexString.HexZero | src/qt6gtk2-style/qgtkpainter.cpp:57 | zero is encoded as all '0' digits |
| HexString.HexString8Injective | src/qt6gtk2-style/qgtk2painter.cpp:131 | the 2-digit `uchar` field determines its byte |
| HexString.HexString32Injective | src/qt6gtk2-style/qgtkpainter.cpp:53-56 | the 8-digit field determines a 32-bit value, for two values of one signedness |
| HexString.HexString64Injective | src/qt6gtk2-style/qgtkpainter.cpp:57 | the 16-digit `quint64` field determines the pointer |
| GtkPainter.GtkPainter.constructor | src/qt6gtk2-style/qgtkpainter.cpp:29-32 | a new painter is in the reset state with no Qt painter |
| GtkPainter.GtkPainter.Reset | src/qt6gtk2-style/qgtkpainter.cpp:38-46 | sets the painter, alpha on, both flips off, caching on and the null clip rectangle; the new state depends only on the argument, so reset is idempotent |
| GtkPainter.GtkPainter.SetAlphaSupport | src/qt6gtk2-style/qgtkpainter_p.h:55 | changes `m_alpha` only |
| GtkPainter.GtkPainter.SetClipRect | src/qt6gtk2-style/qgtkpainter_p.h:56 | changes `m_cliprect` only |
| GtkPainter.GtkPainter.SetFlipHorizontal | src/qt6gtk2-style/qgtkpainter_p.h:57 | changes `m_hflipped` only |
| GtkPainter.GtkPainter.SetFlipVertical | src/qt6gtk2-style/qgtkpainter_p.h:58 | changes `m_vflipped` only |
| GtkPainter.GtkPainter.SetUsePixmapCache | src/qt6gtk2-style/qgtkpainter_p.h:59 | changes `m_usePixmapCache` only |
| GtkPainter.UniqueName | src/qt6gtk2-style/qgtkpainter.cpp:48-59 | the name starts with the key and adds exactly 48 characters, whatever the field values |
| GtkPainter.UniqueNameLayout | src/qt6gtk2-style/qgtkpainter.cpp:48-59 | the name is the key, then state, shadow, width and height as 8 hex digits each, then the widget as 16 digits, in that order |
| GtkPainter.UniqueNameDefaultWidget | src/qt6gtk2-style/qgtkpainter_p.h:92 | a name built without a widget ends in 16 '0' digits, the null pointer |
| GtkPainter.UniqueNameInjective | src/qt6gtk2-style/qgtkpainter.cpp:52-57 | equal names come from equal key, state, shadow, width, height and widget |
| PixmapCache.PixmapCache.Find | src/qt6gtk2-style/qgtk2painter.cpp:135 | finds a pixmap exactly when the key is present, and returns the pixmap stored under it |
| PixmapCache.PixmapCache.Insert | src/qt6gtk2-style/qgtk2painter.cpp:149-150 | stores the pixmap under the key and leaves every other entry |
| PixmapCache.Step | src/qt6gtk2-style/qgtk2painter.cpp:135-151 | a call renders exactly when caching is off or the key is missing; it draws the cached pixmap on a hit and the render otherwise; with caching off, or nothing to draw, the cache is unchanged, and with caching on the drawn pixmap ends up stored under the key |
| PixmapCache.StepHit | src/qt6gtk2-style/qgtk2painter.cpp:135 | with caching on, a hit renders nothing, leaves the cache and draws the cached pixmap |
| PixmapCache.StepMiss | src/qt6gtk2-style/qgtk2painter.cpp:135-151 | on a miss the pixmap is rendered; a rendered pixmap is inserted under exactly that key, no other entry changes, and it is drawn |
| PixmapCache.StepUncached | src/qt6gtk2-style/qgtk2painter.cpp:135-151 | with caching off every call renders and the cache is never modified |
| PixmapCache.StepIdempotent | src/qt6gtk2-style/qgtk2painter.cpp:200-213 | repeating a call that drew with caching on renders nothing and draws the same pixmap |
| PixmapCache.StepOnlyAddsKey | src/qt6gtk2-style/qgtk2painter.cpp:200-213 | a paint call never drops or replaces an entry other than under its own key |
| QtPainting.QtPainter.Draw | src/qt6gtk2-style/qgtk2painter.cpp:236 | a draw through the Qt painter appends one draw call |
| PaintGeometry.BoxCacheHeight | src/qt6gtk2-style/qgtk2painter.cpp:191-195 | the cached height is reduced (to 65) exactly when the box is taller than 256 and its area exceeds 131072, and is never larger than the box |
| PaintGeometry.BoxAreaOverflowSkipsTiling | src/qt6gtk2-style/qgtk2painter.cpp:194 | a 32768 x 65536 box, both sides valid widget sizes, is not tiled as written: the whole 32768 x 65536 rectangle goes to DRAW_TO_CACHE, where the corrected test caches 65 rows; renderTheme's `width*height*4` (line 41) wraps to 0 for it as well |
| PaintGeometry.BoxCacheHeightAsWritten | src/qt6gtk2-style/qgtk2painter.cpp:191-195 | as written, the height is reduced, always to 65, exactly when the wrapped 32-bit area test passes, and never grows |
| PaintGeometry.BoxTestsAgreeWhenAreaFits | src/qt6gtk2-style/qgtk2painter.cpp:194 | whenever width*height fits in a 32-bit `int`, the as-written test and the corrected test agree, and so do the cached heights |
| PaintGeometry.BoxCachedAreaBounded | src/qt6gtk2-style/qgtk2painter.cpp:191-195 | with the corrected test, the cached pixmap never has more pixels than 131072 or 256 rows of the box |
| PaintGeometry.BoxGapCacheHeight | src/qt6gtk2-style/qgtk2painter.cpp:125-128 | the cached height is reduced to 33 exactly when the frame is taller than 256 and the gap is on the top or bottom side |
| PaintGeometry.TileStrips | src/qt6gtk2-style/qgtk2painter.cpp:152-172 | the top, middle and bottom strips are stacked in order and span paintRect's width; the end caps are `border` rows high and copied from the cache's first and last `border` rows; the middle repeats cache row `border` |
| PaintGeometry.StripsPartitionRows | src/qt6gtk2-style/qgtk2painter.cpp:217-234 | every row of paintRect lies in exactly one of the three strips |
| PaintGeometry.StripRowMapping | src/qt6gtk2-style/qgtk2painter.cpp:155-172 | with a 2*border+1 row cache, the first `border` rows show cache rows [0, border), every middle row shows row `border`, and the last `border` rows show the cache's last `border` rows |
| PaintGeometry.EndCapsAreVerbatim | src/qt6gtk2-style/qgtk2painter.cpp:219-233 | an end cap's source and destination rectangles have the same size when the cache is as wide as the box |
| PaintGeometry.PlaceIndicator | src/qt6gtk2-style/qgtk2painter.cpp:379-390 | the pixmap rectangle is the valid clip rectangle or the indicator's own; GTK's clip is the whole pixmap; the offsets put the indicator exactly at its own corner; there is no offset without a clip |
| Gtk2Painter.IssuedRequests | src/qt6gtk2-style/qgtk2painter.cpp:66-93 | DRAW_TO_CACHE sends no request when the size is too large or no pixmap is allocated; otherwise it sends the first render (over black with alpha, over the style background without), then with alpha, once the first pixbuf exists, the render over white |
| Gtk2Painter.RenderedPixmap | src/qt6gtk2-style/qgtk2painter.cpp:66-104 | a pixmap is produced exactly when both sizes are at most QWIDGETSIZE_MAX and every allocation succeeds; it has the rectangle's size and width*height*4 bytes |
| Gtk2Painter.RenderedAfterAllRequests | src/qt6gtk2-style/qgtk2painter.cpp:76-97 | a pixmap is produced only after one render without alpha, or the black and white renders with alpha |
| Gtk2Painter.OpaqueRenderHasFullAlpha | src/qt6gtk2-style/qgtk2painter.cpp:44-48 | a request GTK paints the same over black and white yields alpha 255 in every pixel |
| Gtk2Painter.BoxGapKey | src/qt6gtk2-style/qgtk2painter.cpp:130-133 | the key begins with uniqueName of part, state, shadow, the cached size and the widget, then 18 characters for the gap side, width and x; its length is fixed apart from the strings it carries |
| Gtk2Painter.BoxKey | src/qt6gtk2-style/qgtk2painter.cpp:197-198 | the key begins with uniqueName of part, state, shadow, the cached size and the widget, then pmKey; its length is fixed apart from the strings it carries |
| Gtk2Painter.HlineKey | src/qt6gtk2-style/qgtk2painter.cpp:248-252 | the key begins with uniqueName with GTK_SHADOW_NONE and the widget, then 24 characters for x1, x2 and y, then pmKey; its length is fixed apart from the strings it carries |
| Gtk2Painter.VlineKey | src/qt6gtk2-style/qgtk2painter.cpp:277-281 | the key begins with uniqueName with GTK_SHADOW_NONE and the widget, then 24 characters for y1, y2 and x, then pmKey; its length is fixed apart from the strings it carries |
| Gtk2Painter.ExpanderKey | src/qt6gtk2-style/qgtk2painter.cpp:308-310 | the key begins with uniqueName with GTK_SHADOW_NONE and the widget, then 2 characters for the expander style, then pmKey; its length is fixed apart from the strings it carries |
| Gtk2Painter.FocusKey | src/qt6gtk2-style/qgtk2painter.cpp:334 | the key begins with uniqueName with GTK_SHADOW_NONE and the widget, then pmKey; its length is fixed apart from the strings it carries |
| Gtk2Painter.ResizeGripKey | src/qt6gtk2-style/qgtk2painter.cpp:359 | the key begins with uniqueName with the shadow and the widget, then pmKey; the edge is not in the key; its length is fixed apart from the strings it carries |
| Gtk2Painter.ArrowKey | src/qt6gtk2-style/qgtk2painter.cpp:384-386 | the key begins with uniqueName with the null widget, then 2 characters for the arrow type, then pmKey; its length is fixed apart from the strings it carries |
| Gtk2Painter.HandleKey | src/qt6gtk2-style/qgtk2painter.cpp:416-417 | the key begins with uniqueName with the null widget, then 2 characters for the orientation; no pmKey; its length is fixed apart from the strings it carries |
| Gtk2Painter.SliderKey | src/qt6gtk2-style/qgtk2painter.cpp:446 | the key begins with uniqueName with the shadow and the widget, then pmKey; its length is fixed apart from the strings it carries |
| Gtk2Painter.ShadowKey | src/qt6gtk2-style/qgtk2painter.cpp:476 | the key begins with uniqueName with the null widget, then pmKey; its length is fixed apart from the strings it carries |
| Gtk2Painter.FlatBoxKey | src/qt6gtk2-style/qgtk2painter.cpp:494 | the key begins with uniqueName with the null widget, then pmKey; its length is fixed apart from the strings it carries |
| Gtk2Painter.ExtensionKey | src/qt6gtk2-style/qgtk2painter.cpp:520-521 | the key begins with uniqueName with the widget, then 2 characters for the gap position; its length is fixed apart from the strings it carries |
| Gtk2Painter.IndicatorKey | src/qt6gtk2-style/qgtk2painter.cpp:547 | the key begins with exactly uniqueName of the detail, state, shadow and size, with the null widget; its length is fixed apart from the strings it carries |
| Gtk2Painter.ShadowAndFlatBoxKeysCoincide | src/qt6gtk2-style/qgtk2painter.cpp:466-509 | paintShadow and paintFlatBox build identical keys from identical arguments, so each can draw the other's pixmap |
| Gtk2Painter.ArrowKeyIgnoresPlacement | src/qt6gtk2-style/qgtk2painter.cpp:379-390 | with a valid clip, arrows at different positions inside equal-sized clips share a key although GTK draws them at different offsets |
| Gtk2Painter.BoxGapKeySeparatesGapSides | src/qt6gtk2-style/qgtk2painter.cpp:130-133 | frames differing only in the gap side never share a cache entry |
| Gtk2Painter.BoxKeyIdentifiesSize | src/qt6gtk2-style/qgtk2painter.cpp:197-198 | boxes with the same part, state, shadow, widget and extra key share an entry only when their cached sizes are equal |
| Gtk2Painter.TallBoxesShareCacheEntry | src/qt6gtk2-style/qgtk2painter.cpp:191-198 | tiled boxes of one width share one 65-row entry whatever their heights |
| Gtk2Painter.Gtk2Painter.constructor | src/qt6gtk2-style/qgtk2painter.cpp:106-107 | a new QGtk2Painter holds the GtkWindow and starts in the reset state |
| Gtk2Painter.Gtk2Painter.RenderTheme | src/qt6gtk2-style/qgtk2painter.cpp:39-63 | the loop rewrites bdata in place into the converted buffer (only the first width*height*4 bytes change) and never writes wdata; the pixmap has the rectangle's size, the alpha format and the flips |
| Gtk2Painter.Gtk2Painter.ConvertPixel | src/qt6gtk2-style/qgtk2painter.cpp:43-52 | one loop pass converts exactly the four bytes of one pixel, reading blue before any write |
| Gtk2Painter.Gtk2Painter.DrawToCache | src/qt6gtk2-style/qgtk2painter.cpp:66-104 | yields RenderedPixmap, None on each early return, and sends IssuedRequests |
| Gtk2Painter.Gtk2Painter.CachedPixmap | src/qt6gtk2-style/qgtk2painter.cpp:135-151 | the cache, the drawn pixmap and the GTK requests are those of the cache step on the rendered pixmap |
| Gtk2Painter.Gtk2Painter.PaintAt | src/qt6gtk2-style/qgtk2painter.cpp:253-265 | the cache step under the key, with GTK's requests only when it renders; a drawn pixmap is drawn once at the rectangle's corner, and nothing is drawn when DRAW_TO_CACHE returns early |
| Gtk2Painter.Gtk2Painter.PaintStretched | src/qt6gtk2-style/qgtk2painter.cpp:135-174 | the same cache step; a pixmap cached at a reduced height is drawn as the top, tiled middle and bottom strips over paintRect, any other at paintRect's corner |
| Gtk2Painter.Gtk2Painter.PaintBoxGap | src/qt6gtk2-style/qgtk2painter.cpp:110-175 | does nothing for an invalid rect; otherwise follows the cache step at the reduced height under the gap key; a reduced pixmap is drawn as the three strips, any other at paintRect's corner |
| Gtk2Painter.Gtk2Painter.PaintBox | src/qt6gtk2-style/qgtk2painter.cpp:177-237 | the same for boxes, with the corrected area test and border 32 |
| Gtk2Painter.Gtk2Painter.PaintHline | src/qt6gtk2-style/qgtk2painter.cpp:239-266 | nothing for an invalid rect; otherwise the cache step under a key with no shadow and the line's coordinates, GTK drawing from x1 to x2 at y, drawn at the corner |
| Gtk2Painter.Gtk2Painter.PaintVline | src/qt6gtk2-style/qgtk2painter.cpp:268-296 | the same for vertical lines |
| Gtk2Painter.Gtk2Painter.PaintExpander | src/qt6gtk2-style/qgtk2painter.cpp:299-324 | nothing for an invalid rect; otherwise GTK draws the expander centred at half the width and height; the key adds the expander style |
| Gtk2Painter.Gtk2Painter.PaintFocus | src/qt6gtk2-style/qgtk2painter.cpp:326-347 | nothing for an invalid rect; otherwise the cache step under a key with no shadow |
| Gtk2Painter.Gtk2Painter.PaintResizeGrip | src/qt6gtk2-style/qgtk2painter.cpp:350-371 | nothing for an invalid rect; GTK gets the edge, but the key does not include it |
| Gtk2Painter.Gtk2Painter.PaintArrow | src/qt6gtk2-style/qgtk2painter.cpp:374-405 | nothing when the clip-substituted rect is invalid; otherwise GTK draws the arrow at its offset in a clip-sized pixmap, keyed without the widget, drawn at the clip rectangle's corner |
| Gtk2Painter.Gtk2Painter.PaintHandle | src/qt6gtk2-style/qgtk2painter.cpp:408-434 | nothing for an invalid rect; the key adds the orientation and has no widget |
| Gtk2Painter.Gtk2Painter.PaintSlider | src/qt6gtk2-style/qgtk2painter.cpp:437-463 | nothing for an invalid rect; the cache step under the widget's key |
| Gtk2Painter.Gtk2Painter.PaintShadow | src/qt6gtk2-style/qgtk2painter.cpp:466-484 | nothing for an invalid rect; the key has no widget |
| Gtk2Painter.Gtk2Painter.PaintFlatBox | src/qt6gtk2-style/qgtk2painter.cpp:486-509 | nothing for an invalid rect; the key has no widget |
| Gtk2Painter.Gtk2Painter.PaintExtention | src/qt6gtk2-style/qgtk2painter.cpp:511-535 | nothing for an invalid rect; the key adds the gap position |
| Gtk2Painter.Gtk2Painter.PaintOption | src/qt6gtk2-style/qgtk2painter.cpp:537-566 | as paintArrow, keyed by the detail, state, shadow and pixmap size only |
| Gtk2Painter.Gtk2Painter.PaintCheckbox | src/qt6gtk2-style/qgtk2painter.cpp:568-598 | the same for check boxes |
| GtkStylePrivate.StrLen | src/qt6gtk2-style/qgtkstyle_p_p.h:84 | qstrlen is 0 for null, otherwise the index of the first NUL |
| GtkStylePrivate.StrLenIsFirstNul | src/qt6gtk2-style/qgtkstyle_p_p.h:84 | any NUL with no NUL before it is at index qstrlen |
| GtkStylePrivate.HashableLatin1Literal.FromLiteral | src/qt6gtk2-style/qgtkstyle_p_p.h:62-64 | a `char[N]` literal has size N-1 and points at the array |
| GtkStylePrivate.HashableLatin1Literal.WithLength | src/qt6gtk2-style/qgtkstyle_p_p.h:88-90 | records the given pointer and length |
| GtkStylePrivate.HashableLatin1Literal.Copy | src/qt6gtk2-style/qgtkstyle_p_p.h:67-69 | copies size and pointer |
| GtkStylePrivate.HashableLatin1Literal.FromData | src/qt6gtk2-style/qgtkstyle_p_p.h:82-85 | size is qstrlen of the string, and the pointer is the string |
| GtkStylePrivate.HashableLatin1Literal.Assign | src/qt6gtk2-style/qgtkstyle_p_p.h:71-78 | copies size and pointer; self-assignment changes nothing |
| GtkStylePrivate.HashableLatin1Literal.ToString | src/qt6gtk2-style/qgtkstyle_p_p.h:80 | exactly size() characters, each the Latin-1 byte at the same position of data() |
| GtkStylePrivate.FromDataText | src/qt6gtk2-style/qgtkstyle_p_p.h:80-85 | a literal from fromData denotes the bytes before the terminator and contains no NUL |
| GtkStylePrivate.HashableLatin1Literal.Equals | src/qt6gtk2-style/qgtkstyle_p_p.h:96 | two literals are equal exactly when they have the same size and the same bytes up to that size |
| GtkStylePrivate.HashableLatin1Literal.NotEquals | src/qt6gtk2-style/qgtkstyle_p_p.h:97 | `!=` is exactly the negation of `==`, so literals of different sizes are always `!=` |
| GtkStylePrivate.DifferentSizesNotEqual | src/qt6gtk2-style/qgtkstyle_p_p.h:97 | literals of different sizes are unequal, and != holds for them |
| GtkStylePrivate.GtkStyleStatics.GtkWidgetMap | src/qt6gtk2-style/qgtkstyle_p_p.h:160-167 | with no map it creates an empty one and registers destroyWidgetMap once; otherwise it returns the same map and changes nothing |
| GtkStylePrivate.GtkStyleStatics.DestroyWidgetMap | src/qt6gtk2-style/qgtkstyle_p_p.h:153-158 | runs cleanupGtkWidgets once and nulls the pointer, so the next gtkWidgetMap creates a fresh map |
| Gtk2Theme.ThemeHintValue | src/qt6gtk2-qtplugin/qt6gtk2theme.cpp:53-72 | the icon theme name is the "gtk-icon-theme-name" setting and the fallback icon theme the "gtk-fallback-icon-theme" setting, StyleNames is ["qt6gtk2"], shortcuts in context menus are shown, and every other hint is the base theme's answer |
| Gtk2Theme.ThemeHintSources | src/qt6gtk2-qtplugin/qt6gtk2theme.cpp:53-72 | overridden hints never depend on the base theme; only the icon theme names depend on the GTK settings |
| Gtk2Theme.GtkFontName | src/qt6gtk2-qtplugin/qt6gtk2theme.cpp:74-80 | the configured GTK font name when non-empty, the base theme's otherwise |
| Gtk2Theme.UsePlatformNativeDialog | src/qt6gtk2-qtplugin/qt6gtk2theme.cpp:82-94 | native for colour, file and font dialogs, not for message dialogs |
| Gtk2Theme.CreatePlatformDialogHelper | src/qt6gtk2-qtplugin/qt6gtk2theme.cpp:96-108 | a helper exactly when the dialog is native, and the helper serves that dialog type |
| Gtk2Theme.HelpersAreDistinct | src/qt6gtk2-qtplugin/qt6gtk2theme.cpp:98-105 | different dialog types get different helpers |
| ThemePlugin.ToLower | src/qt6gtk2-qtplugin/main.cpp:38 | lowercasing keeps the length, lowers each ASCII letter and leaves no upper-case letter |
| ThemePlugin.ToLowerIdempotent | src/qt6gtk2-qtplugin/main.cpp:38 | lowercasing twice equals lowercasing once |
| ThemePlugin.Create | src/qt6gtk2-qtplugin/main.cpp:35-42 | a theme exactly when the lowercased key is "gtk2", "qt6gtk2" or "qt5gtk2" |
| ThemePlugin.CreateIgnoresCase | src/qt6gtk2-qtplugin/main.cpp:37-38 | keys with equal lowercase get the same answer, whatever the params |
| ThemePlugin.CreateAcceptsLowercase | src/qt6gtk2-qtplugin/main.cpp:38 | a key is accepted exactly when its lowercase is |
| ThemePlugin.MixedCaseKeysAccepted | src/qt6gtk2-qtplugin/main.cpp:38 | "GTK2", "Qt6Gtk2" and "QT5GTK2" are accepted |
| ThemePlugin.OtherKeysRefused | src/qt6gtk2-qtplugin/main.cpp:41 | "gtk3", the empty key and "qt6gtk2 " are refused |
| StylePlugin.Create | src/qt6gtk2-style/plugin.cpp:35-40 | a style exactly when the key is "qt6gtk2" or "qt5gtk2" |
| StylePlugin.StyleKeysAreExact | src/qt6gtk2-style/plugin.cpp:37-39 | matching is case-sensitive ("QT6GTK2" is refused) and "gtk2" is refused |
| StylePlugin.StyleKeysAreThemeKeys | src/qt6gtk2-style/plugin.cpp:37 | every key the style plugin accepts is accepted by the theme plugin |
| StylePlugin.AdvertisedStyleIsCreated | src/qt6gtk2-qtplugin/qt6gtk2theme.cpp:60-66 | the one style name the theme advertises is one the style plugin creates |

## Left out

- GTK and GDK drawing are not modelled: `gtk_paint_*`, `gdk_pixmap_new`, `gdk_draw_rectangle`, `gtk_style_attach` and `gdk_pixbuf_get_from_drawable` are foreign C code. They appear as recorded requests plus the `GtkEnv` parameter (allocation outcomes and a raster function). Freeing pixmaps and pixbufs is not modelled.
- QPixmapCache's capacity and eviction policy are not modelled. Eviction is represented by `PixmapCache.Remove`, which may drop any key between paint calls.
- Pixel compositing by `QPainter::drawPixmap` and `drawTiledPixmap` is not modelled, nor is the one-row tile pixmap painted from the cache. The model records the rectangles and the tile row drawn.
- `QImage::mirrored` and `QPixmap::fromImage` are not modelled. The pixmap records the alpha format and the two flip flags instead of mirrored pixels.
- Gtk2Painter.Gtk2Painter.RenderTheme: the 32-bit overflow of `width*height*4` is not modelled. The model requires the buffers to hold width*height*4 bytes. The source's byte count wraps for rectangles of 2^29 pixels or more, which the QWIDGETSIZE_MAX guard does not exclude; such a pixbuf would need 2 GiB.
- A GTK style is an opaque identifier (`StyleId`). Style attachment is recorded as the window carried by each request.
- Qt's `HexString` (a private Qt header) is not part of this model. The encoding here is fixed-width, lower-case, least significant digit first. Only its width and injectivity matter to the proofs, not its digit order.
- HexString.HexString32Injective: stated for two values of one signedness only. A negative `int` and the `uint` with the same bits share an encoding, as the source's conversion to `uint` makes them.
- ThemePlugin.ToLower: only ASCII letters are lowercased; Unicode case mapping in `QString::toLower` is not modelled.
- `gtkSetting`, `gtk_init` and the Xlib error-handler swap in the theme constructor are not modelled; settings values are the `gtkSetting` parameter.
- The GNOME base theme is not modelled; its answers are parameters.
- The dialog helpers' behaviour (src/qt6gtk2-qtplugin/qt6gtk2dialoghelpers.h) is not modelled; only which helper is created.
- The declaration-only headers (qgtkstyle_p.h, qgtk2painter_p.h, qt6gtk2theme.h) carry no behaviour of their own.
- In qgtkstyle_p_p.h, these depend on GTK widgets and the event loop, and their bodies are not part of this model:
  - `QGtkStyleFilter` and `QGtkStyleUpdateScheduler`;
  - the palette, font and theme-name queries;
  - widget registration.
- `cleanupGtkWidgets` is recorded only as a count of calls, and `qAddPostRoutine` only as the list of registered routines.
- GtkStylePrivate.GtkStyleStatics.DestroyWidgetMap: `delete` is not modelled. The old map object stays allocated, but nothing refers to it.
- GtkStylePrivate.HashableLatin1Literal.Equals: `operator==` is declared in qgtkstyle_p_p.h but defined in a file that is not part of this model. It is taken to compare the text of the two literals. `!=` is proved to be its negation only in that reading.
- Gtk2Painter.Gtk2Painter.PaintBox: the model uses the corrected area test (see Findings). It differs from the source only when width*height exceeds 2^31-1; `PaintGeometry.BoxTestsAgreeWhenAreaFits` proves the two agree everywhere else.
- The paint methods require `base.painter != null`. The source dereferences `m_painter` only on its drawing path. A call with an invalid rect, or one that stops at an early return of DRAW_TO_CACHE, is well defined without a Qt painter, and the model excludes those calls too.

## Findings

| source | as written | input that shows it | evidently intended | confidence | as-written member | corrected member |
|---|---|---|---|---|---|---|
| src/qt6gtk2-style/qgtk2painter.cpp:194 | the area test multiplies `rect.width()*rect.height()` as 32-bit `int`, which wraps for large boxes | a 32768 x 65536 box, both sides within QWIDGETSIZE_MAX: the product 2^31 wraps to INT_MIN, so the box is not tiled and the whole 32768 x 65536 rectangle goes to DRAW_TO_CACHE; there its pixmap and pixbufs would very likely fail to allocate, and renderTheme's `width*height*4` (line 41) wraps to 0, so no pixel would be converted even if they did | tile whenever the true area exceeds 256*512, keeping the cached pixmap at 65 rows | not executed; medium (the sizes are extreme but accepted by the guard) | PaintGeometry.BoxAreaOverflowSkipsTiling | PaintGeometry.BoxCachedAreaBounded |
