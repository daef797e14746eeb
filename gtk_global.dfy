/**
 * Byte offsets of the colour channels inside one 32-bit pixel
 * (src/qt6gtk2-style/qgtkglobal_p.h), under the header's own names.  The
 * header calls byte 0 of a pixbuf pixel GTK_BLUE and byte 2 GTK_RED,
 * although GdkPixbuf stores R, G, B, A; its QT_* names are swapped the same
 * way, so the two swaps cancel and the conversion is right.  The model
 * follows the header's names, not the physical channels.  The QT_* offsets
 * depend on the host byte order, which the C++ code fixes at compile time
 * with Q_BYTE_ORDER and which the model takes as a parameter.
 */
module GtkGlobal {

  datatype ByteOrder = LittleEndian | BigEndian

  const GtkRed: nat := 2
  const GtkGreen: nat := 1
  const GtkBlue: nat := 0
  const GtkAlpha: nat := 3

  function QtRed(order: ByteOrder): nat { if order.BigEndian? then 3 else 0 }
  function QtGreen(order: ByteOrder): nat { if order.BigEndian? then 2 else 1 }
  function QtBlue(order: ByteOrder): nat { if order.BigEndian? then 1 else 2 }
  function QtAlpha(order: ByteOrder): nat { if order.BigEndian? then 0 else 3 }

  /** Four offsets that name each byte of a 4-byte pixel exactly once. */
  predicate IsPixelLayout(red: nat, green: nat, blue: nat, alpha: nat)
  {
    multiset{red, green, blue, alpha} == multiset{0, 1, 2, 3}
  }

  lemma GtkLayoutIsPermutation()
    ensures IsPixelLayout(GtkRed, GtkGreen, GtkBlue, GtkAlpha)
    ensures GtkBlue == 0 && GtkGreen == 1 && GtkRed == 2 && GtkAlpha == 3
  {
  }

  lemma QtLayoutIsPermutation(order: ByteOrder)
    ensures IsPixelLayout(QtRed(order), QtGreen(order), QtBlue(order), QtAlpha(order))
    ensures order.LittleEndian? ==>
      QtRed(order) == 0 && QtGreen(order) == 1 && QtBlue(order) == 2 && QtAlpha(order) == 3
    ensures order.BigEndian? ==>
      QtAlpha(order) == 0 && QtBlue(order) == 1 && QtGreen(order) == 2 && QtRed(order) == 3
  {
  }

  /** On little-endian hosts green stays put and red and blue trade places. */
  lemma LittleEndianSwapsRedAndBlue()
    ensures QtGreen(LittleEndian) == GtkGreen
    ensures QtRed(LittleEndian) == GtkBlue && QtBlue(LittleEndian) == GtkRed
    ensures QtAlpha(LittleEndian) == GtkAlpha
  {
  }

  /**
   * On big-endian hosts Qt's alpha byte is GTK's blue byte, so the blue
   * value must be read before the alpha byte is written.
   */
  lemma BigEndianAlphaAliasesGtkBlue()
    ensures QtAlpha(BigEndian) == GtkBlue
    ensures QtRed(BigEndian) == GtkAlpha
  {
  }

  /** Every byte offset of a pixel is exactly one of the four Qt channels. */
  lemma QtOffsetCases(order: ByteOrder, k: nat)
    requires k < 4
    ensures k == QtRed(order) || k == QtGreen(order) || k == QtBlue(order) || k == QtAlpha(order)
  {
  }
}
