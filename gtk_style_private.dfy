/**
 * The value object and the lazily created widget map of
 * src/qt6gtk2-style/qgtkstyle_p_p.h.
 *
 * QHashableLatin1Literal is a (length, pointer) view of Latin-1 text that
 * keys the map of GTK widgets.  The map itself is a static pointer created
 * on first use, with a post routine registered to destroy it.
 */
module GtkStylePrivate {
  import opened Wrappers
  import opened GtkPainter

  /** A Latin-1 byte. */
  type Latin1 = x: int | 0 <= x < 256

  /**
   * A `const char *`: null, or an address together with the bytes that
   * can be read starting there.
   */
  datatype CharPtr = Null | Ptr(addr: nat, memory: seq<Latin1>)

  /** A C string: null, or memory holding a terminating NUL. */
  predicate IsCString(str: CharPtr)
  {
    str.Ptr? ==> 0 in str.memory
  }

  /** The number of bytes before the first NUL of memory. */
  function StrLenOf(memory: seq<Latin1>): (r: nat)
    requires 0 in memory
    ensures r < |memory| && memory[r] == 0
    ensures forall i :: 0 <= i < r ==> memory[i] != 0
  {
    if memory[0] == 0 then 0 else 1 + StrLenOf(memory[1..])
  }

  /** qstrlen: 0 for a null pointer, the length up to the terminator otherwise. */
  function StrLen(str: CharPtr): (r: nat)
    requires IsCString(str)
    ensures str.Null? ==> r == 0
    ensures str.Ptr? ==> r < |str.memory| && str.memory[r] == 0 && forall i :: 0 <= i < r ==> str.memory[i] != 0
  {
    if str.Null? then 0 else StrLenOf(str.memory)
  }

  /** The first NUL is unique: any NUL-free prefix ending in a NUL has length StrLen. */
  lemma {:induction false} StrLenIsFirstNul(memory: seq<Latin1>, n: nat)
    requires n < |memory| && memory[n] == 0
    requires forall i :: 0 <= i < n ==> memory[i] != 0
    ensures StrLenOf(memory) == n
  {
    if memory[0] != 0 {
      StrLenIsFirstNul(memory[1..], n - 1);
    }
  }

  class HashableLatin1Literal {
    /** m_size */
    var size: int
    /** m_data */
    var data: CharPtr

    /** The size never reaches past the readable bytes; a null pointer has size 0. */
    predicate Valid()
      reads this
    {
      && size >= 0
      && (data.Null? ==> size == 0)
      && (data.Ptr? ==> size <= |data.memory|)
    }

    /**
     * The template constructor taking `const char (&str)[N]`: the array's
     * N bytes with the terminator excluded from the size.
     */
    constructor FromLiteral(literal: seq<Latin1>, addr: nat)
      requires |literal| >= 1
      ensures size == |literal| - 1 && data == Ptr(addr, literal)
      ensures Valid()
    {
      size := |literal| - 1;
      data := Ptr(addr, literal);
    }

    /** The private constructor (str, length). */
    constructor WithLength(str: CharPtr, length: int)
      requires length >= 0 && (str.Null? ==> length == 0) && (str.Ptr? ==> length <= |str.memory|)
      ensures size == length && data == str
      ensures Valid()
    {
      size := length;
      data := str;
    }

    /** The copy constructor: the same size and the same pointer. */
    constructor Copy(other: HashableLatin1Literal)
      requires other.Valid()
      ensures size == other.size && data == other.data
      ensures Valid()
    {
      size := other.size;
      data := other.data;
    }

    /** fromData: a view of a C string up to its terminator. */
    static method FromData(str: CharPtr) returns (l: HashableLatin1Literal)
      requires IsCString(str)
      ensures fresh(l) && l.Valid()
      ensures l.size == StrLen(str) && l.data == str
    {
      l := new HashableLatin1Literal.WithLength(str, StrLen(str));
    }

    /**
     * operator=: copies size and pointer from other; assigning an object
     * to itself changes nothing.
     */
    method Assign(other: HashableLatin1Literal)
      requires other.Valid()
      modifies this
      ensures size == old(other.size) && data == old(other.data)
      ensures other == this ==> unchanged(this)
      ensures Valid()
    {
      if this == other {
        return;
      }
      size := other.size;
      data := other.data;
    }

    /** toString: the first size() bytes at data(), each Latin-1 byte one character. */
    function ToString(): (r: string)
      requires Valid()
      reads this
      ensures |r| == size
      ensures forall i :: 0 <= i < size ==> r[i] as int == data.memory[i]
    {
      if data.Null? then []
      else
        var memory, n := data.memory, size;
        seq(n, i requires 0 <= i < n => memory[i] as char)
    }

    /**
     * operator== is declared here but defined elsewhere; it is taken to
     * compare the text the two literals denote.
     */
    function Equals(other: HashableLatin1Literal): (r: bool)
      requires Valid() && other.Valid()
      reads this, other
      ensures r <==> size == other.size && forall i :: 0 <= i < size ==> data.memory[i] == other.data.memory[i]
    {
      var t, u := ToString(), other.ToString();
      assert size == other.size && (forall i :: 0 <= i < size ==> data.memory[i] == other.data.memory[i]) ==> t == u by {
        if size == other.size && forall i :: 0 <= i < size ==> data.memory[i] == other.data.memory[i] {
          assert forall i :: 0 <= i < |t| ==> t[i] == u[i];
        }
      }
      t == u
    }

    /** operator!=, the negation of operator==. */
    function NotEquals(other: HashableLatin1Literal): (r: bool)
      requires Valid() && other.Valid()
      reads this, other
      ensures r <==> !Equals(other)
      ensures size != other.size ==> r
    {
      !Equals(other)
    }
  }

  /**
   * A literal made by fromData denotes exactly the bytes of the C string
   * before its terminator, so it never contains a NUL.
   */
  lemma {:induction false} FromDataText(str: CharPtr, l: HashableLatin1Literal)
    requires IsCString(str) && str.Ptr?
    requires l.Valid() && l.size == StrLen(str) && l.data == str
    ensures |l.ToString()| == StrLen(str)
    ensures forall i :: 0 <= i < |l.ToString()| ==> l.ToString()[i] as int == str.memory[i] && l.ToString()[i] != 0 as char
  {
    var t := l.ToString();
    forall i | 0 <= i < |t|
      ensures t[i] as int == str.memory[i] && t[i] != 0 as char
    {
      assert str.memory[i] != 0;
    }
  }

  /** Literals of different lengths are never equal, and != holds for them. */
  lemma DifferentSizesNotEqual(a: HashableLatin1Literal, b: HashableLatin1Literal)
    requires a.Valid() && b.Valid() && a.size != b.size
    ensures a.NotEquals(b) && !a.Equals(b)
  {
    assert |a.ToString()| != |b.ToString()|;
  }

  // ---- the widget map ------------------------------------------------------

  /** QHash<QHashableLatin1Literal, GtkWidget*>, keyed by the text of the literal. */
  class WidgetMap {
    var entries: map<string, WidgetId>

    constructor()
      ensures entries == map[]
    {
      entries := map[];
    }
  }

  /** Routines handed to qAddPostRoutine, run when the application object is destroyed. */
  datatype PostRoutine = DestroyWidgetMapRoutine

  /**
   * The static state of QGtkStylePrivate that the map lifecycle touches:
   * the widgetMap pointer, the post routines registered so far, and how
   * many times cleanupGtkWidgets has run.
   */
  class GtkStyleStatics {
    var widgetMap: WidgetMap?
    var postRoutines: seq<PostRoutine>
    var cleanups: nat

    constructor()
      ensures widgetMap == null && postRoutines == [] && cleanups == 0
    {
      widgetMap := null;
      postRoutines := [];
      cleanups := 0;
    }

    /**
     * gtkWidgetMap: creates an empty map and registers destroyWidgetMap
     * as a post routine only when there is no map; otherwise returns the
     * existing map and changes nothing.
     */
    method GtkWidgetMap() returns (m: WidgetMap)
      modifies this
      ensures old(widgetMap) != null ==> m == old(widgetMap) && unchanged(this)
      ensures old(widgetMap) == null ==>
        && fresh(m) && m.entries == map[]
        && postRoutines == old(postRoutines) + [DestroyWidgetMapRoutine]
        && cleanups == old(cleanups)
      ensures widgetMap == m
    {
      if widgetMap == null {
        widgetMap := new WidgetMap();
        postRoutines := postRoutines + [DestroyWidgetMapRoutine];
      }
      m := widgetMap;
    }

    /**
     * destroyWidgetMap: runs cleanupGtkWidgets, deletes the map and nulls
     * the pointer, so the next gtkWidgetMap creates a fresh one.
     */
    method DestroyWidgetMap()
      modifies this
      ensures widgetMap == null
      ensures cleanups == old(cleanups) + 1 && postRoutines == old(postRoutines)
    {
      cleanups := cleanups + 1;
      widgetMap := null;
    }
  }
}
