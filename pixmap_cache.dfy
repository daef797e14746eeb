/**
 * QPixmapCache, the process-wide cache the paint methods share, and the
 * find / render / insert protocol every paint method of
 * src/qt6gtk2-style/qgtk2painter.cpp follows.  The cache is a map from key
 * to pixmap; QPixmapCache's own eviction is represented by Remove, which
 * the paint methods never call themselves, so a key that was inserted may
 * be missing later.
 */
module PixmapCache {
  import opened Wrappers
  import opened PixelFormat

  class PixmapCache {
    var entries: map<string, Pixmap>

    constructor()
      ensures entries == map[]
    {
      entries := map[];
    }

    /** QPixmapCache::find. */
    method Find(key: string) returns (found: Option<Pixmap>)
      ensures found.Some? <==> key in entries
      ensures found.Some? ==> found.value == entries[key]
    {
      if key in entries {
        found := Some(entries[key]);
      } else {
        found := None;
      }
    }

    /** QPixmapCache::insert. */
    method Insert(key: string, pixmap: Pixmap)
      modifies this
      ensures entries == old(entries)[key := pixmap]
    {
      entries := entries[key := pixmap];
    }

    /** An eviction by QPixmapCache. */
    method Remove(key: string)
      modifies this
      ensures entries == old(entries) - {key}
    {
      entries := entries - {key};
    }
  }

  /**
   * One paint call's use of the cache: the pixmap it goes on to draw
   * (None when it returns without drawing), the cache afterwards, and
   * whether it asked GTK to render.
   */
  datatype CacheStep = CacheStep(drawn: Option<Pixmap>, entries: map<string, Pixmap>, rendered: bool)

  /**
   * The lookup is made only when caching is on; when it is off or the key
   * is missing the pixmap is rendered (`render`, None when DRAW_TO_CACHE
   * returns early), and a rendered pixmap is inserted only when caching is
   * on.
   */
  function Step(useCache: bool, entries: map<string, Pixmap>, key: string, render: Option<Pixmap>): (r: CacheStep)
    ensures r.rendered <==> !useCache || key !in entries
    ensures r.drawn == (if r.rendered then render else Some(entries[key]))
    ensures !useCache || r.drawn.None? ==> r.entries == entries
    ensures useCache && r.drawn.Some? ==> r.entries == entries[key := r.drawn.value]
  {
    if useCache && key in entries then CacheStep(Some(entries[key]), entries, false)
    else if render.None? then CacheStep(None, entries, true)
    else CacheStep(render, if useCache then entries[key := render.value] else entries, true)
  }

  /** A hit renders nothing, changes nothing and draws the cached pixmap. */
  lemma StepHit(entries: map<string, Pixmap>, key: string, render: Option<Pixmap>)
    requires key in entries
    ensures Step(true, entries, key, render) == CacheStep(Some(entries[key]), entries, false)
  {
  }

  /** A miss renders; a successful render is inserted under exactly that key and drawn. */
  lemma StepMiss(entries: map<string, Pixmap>, key: string, render: Option<Pixmap>)
    requires key !in entries
    ensures var s := Step(true, entries, key, render);
      && s.rendered
      && s.drawn == render
      && s.entries.Keys == entries.Keys + (if render.Some? then {key} else {})
      && (render.Some? ==> s.entries[key] == render.value)
      && (forall k :: k in entries ==> s.entries[k] == entries[k])
  {
  }

  /** With caching off every call renders and the cache is left alone. */
  lemma StepUncached(entries: map<string, Pixmap>, key: string, render: Option<Pixmap>)
    ensures var s := Step(false, entries, key, render);
      s.rendered && s.drawn == render && s.entries == entries
  {
  }

  /**
   * Repeating a call that drew with caching on hits: the second call
   * renders nothing, leaves the cache as the first left it, and draws the
   * very same pixmap, whatever GTK would have produced the second time.
   */
  lemma StepIdempotent(entries: map<string, Pixmap>, key: string, first: Option<Pixmap>, second: Option<Pixmap>)
    requires Step(true, entries, key, first).drawn.Some?
    ensures var s1 := Step(true, entries, key, first);
      var s2 := Step(true, s1.entries, key, second);
      !s2.rendered && s2.drawn == s1.drawn && s2.entries == s1.entries
  {
  }

  /** Only the key of this call can be added; no entry is ever dropped or replaced. */
  lemma StepOnlyAddsKey(useCache: bool, entries: map<string, Pixmap>, key: string, render: Option<Pixmap>)
    ensures var s := Step(useCache, entries, key, render);
      && entries.Keys <= s.entries.Keys <= entries.Keys + {key}
      && (forall k :: k in entries ==> s.entries[k] == entries[k])
  {
  }
}
