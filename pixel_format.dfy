/**
 * What QGtk2Painter::renderTheme computes, stated on sequences of bytes
 * (src/qt6gtk2-style/qgtk2painter.cpp:39-63).  GTK draws the widget twice,
 * once over black and once over white; the byte buffers read back are in
 * GTK's B, G, R, A order and are rewritten into Qt's ARGB32 layout.
 */
module PixelFormat {
  import opened GtkGlobal
  import opened Geometry

  type Byte = x: int | 0 <= x < 256

  /**
   * The alpha byte recovered from one pixel drawn over black (b*) and over
   * white (w*): the largest per-channel difference black - white plus 255,
   * stored into an unsigned char, that is, reduced modulo 256.  Nothing
   * clamps the value.
   */
  function Alpha(bBlue: Byte, bGreen: Byte, bRed: Byte, wBlue: Byte, wGreen: Byte, wRed: Byte): Byte
  {
    (Max(Max(bBlue - wBlue, bGreen - wGreen), bRed - wRed) + 255) % 256
  }

  /** A pixel drawn identically over both backgrounds is fully opaque. */
  lemma AlphaOpaqueWhenRendersAgree(blue: Byte, green: Byte, red: Byte)
    ensures Alpha(blue, green, red, blue, green, red) == 255
  {
  }

  /**
   * When no channel of the black render is brighter than the white render
   * (what a compositing theme produces), no wrap-around happens: alpha is
   * 255 minus the smallest white - black difference.
   */
  lemma AlphaWithoutWrap(bBlue: Byte, bGreen: Byte, bRed: Byte, wBlue: Byte, wGreen: Byte, wRed: Byte)
    requires bBlue <= wBlue && bGreen <= wGreen && bRed <= wRed
    ensures var d := Max(Max(bBlue - wBlue, bGreen - wGreen), bRed - wRed);
      -255 <= d <= 0 && Alpha(bBlue, bGreen, bRed, wBlue, wGreen, wRed) == 255 + d
  {
  }

  /**
   * When some channel of the black render is brighter than the white one,
   * the sum exceeds 255 and the stored byte wraps to the difference minus 1
   * (a black render one step brighter gives alpha 0, fully transparent).
   */
  lemma AlphaWrapsWhenBlackIsBrighter(bBlue: Byte, bGreen: Byte, bRed: Byte, wBlue: Byte, wGreen: Byte, wRed: Byte)
    requires bBlue > wBlue || bGreen > wGreen || bRed > wRed
    ensures var d := Max(Max(bBlue - wBlue, bGreen - wGreen), bRed - wRed);
      1 <= d <= 255 && Alpha(bBlue, bGreen, bRed, wBlue, wGreen, wRed) == d - 1
  {
  }

  /** The byte at channel offset k of pixel p. */
  function Channel(s: seq<Byte>, p: nat, k: nat): Byte
    requires k < 4 && 4 * p + 4 <= |s|
  {
    s[4 * p + k]
  }

  /** The alpha recovered for pixel p from the black buffer b and the white buffer w. */
  function PixelAlpha(b: seq<Byte>, w: seq<Byte>, p: nat): Byte
    requires 4 * p + 4 <= |b| && 4 * p + 4 <= |w|
  {
    Alpha(Channel(b, p, GtkBlue), Channel(b, p, GtkGreen), Channel(b, p, GtkRed),
          Channel(w, p, GtkBlue), Channel(w, p, GtkGreen), Channel(w, p, GtkRed))
  }

  /**
   * The byte found at offset k of pixel p once the pixel is in Qt's layout:
   * each Qt colour offset holds the GTK byte of the same colour; the
   * remaining offset, Qt's alpha, holds the recovered alpha when alpha is
   * on and is left as it was otherwise.
   */
  function ConvertedByte(order: ByteOrder, alpha: bool, b: seq<Byte>, w: seq<Byte>, p: nat, k: nat): Byte
    requires k < 4 && 4 * p + 4 <= |b|
    requires alpha ==> 4 * p + 4 <= |w|
  {
    if k == QtRed(order) then Channel(b, p, GtkRed)
    else if k == QtGreen(order) then Channel(b, p, GtkGreen)
    else if k == QtBlue(order) then Channel(b, p, GtkBlue)
    else if alpha then PixelAlpha(b, w, p)
    else Channel(b, p, k)
  }

  /** The whole buffer after the first `pixels` pixels have been converted. */
  function ConvertBuffer(order: ByteOrder, alpha: bool, b: seq<Byte>, w: seq<Byte>, pixels: nat): (r: seq<Byte>)
    requires 4 * pixels <= |b|
    requires alpha ==> 4 * pixels <= |w|
  {
    seq(|b|, i requires 0 <= i < |b| =>
      if i < 4 * pixels then ConvertedByte(order, alpha, b, w, i / 4, i % 4) else b[i])
  }

  /**
   * The meaning of the conversion, pixel by pixel: Qt's red, green and blue
   * bytes are GTK's red, green and blue bytes; Qt's alpha byte is the
   * recovered alpha, or untouched without alpha support; no byte past the
   * converted pixels changes and the length is kept.
   */
  lemma {:induction false} ConvertBufferChannels(order: ByteOrder, alpha: bool, b: seq<Byte>, w: seq<Byte>, pixels: nat, p: nat)
    requires 4 * pixels <= |b|
    requires alpha ==> 4 * pixels <= |w|
    requires p < pixels
    ensures var r := ConvertBuffer(order, alpha, b, w, pixels);
      && |r| == |b|
      && Channel(r, p, QtRed(order)) == Channel(b, p, GtkRed)
      && Channel(r, p, QtGreen(order)) == Channel(b, p, GtkGreen)
      && Channel(r, p, QtBlue(order)) == Channel(b, p, GtkBlue)
      && Channel(r, p, QtAlpha(order)) == (if alpha then PixelAlpha(b, w, p) else Channel(b, p, QtAlpha(order)))
  {
    var r := ConvertBuffer(order, alpha, b, w, pixels);
    forall k | 0 <= k < 4
      ensures r[4 * p + k] == ConvertedByte(order, alpha, b, w, p, k)
    {
      assert (4 * p + k) / 4 == p && (4 * p + k) % 4 == k;
    }
  }

  /** Bytes past the converted pixels are neither read into nor written. */
  lemma ConvertBufferKeepsTail(order: ByteOrder, alpha: bool, b: seq<Byte>, w: seq<Byte>, pixels: nat, i: nat)
    requires 4 * pixels <= |b|
    requires alpha ==> 4 * pixels <= |w|
    requires 4 * pixels <= i < |b|
    ensures ConvertBuffer(order, alpha, b, w, pixels)[i] == b[i]
  {
  }

  /** Without alpha support the white buffer is never consulted. */
  lemma {:induction false} OpaqueConversionIgnoresWhite(order: ByteOrder, b: seq<Byte>, w1: seq<Byte>, w2: seq<Byte>, pixels: nat)
    requires 4 * pixels <= |b|
    ensures ConvertBuffer(order, false, b, w1, pixels) == ConvertBuffer(order, false, b, w2, pixels)
  {
  }

  /** The cached bitmap: dimensions, bytes, format and the mirroring applied. */
  datatype Pixmap = Pixmap(width: int, height: int, data: seq<Byte>, hasAlpha: bool, hflipped: bool, vflipped: bool)
}
