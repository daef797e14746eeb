/**
 * The style plugin's factory (src/qt6gtk2-style/plugin.cpp): it creates
 * the GTK style for the keys "qt6gtk2" and "qt5gtk2", compared exactly.
 */
module StylePlugin {
  import opened Wrappers
  import ThemePlugin
  import Gtk2Theme

  predicate IsStyleKey(key: string)
  {
    key == "qt6gtk2" || key == "qt5gtk2"
  }

  /** The style object the factory returns. */
  datatype Style = GtkStyle

  /** create: the style for an exact style key, None (nullptr) otherwise. */
  function Create(key: string): (r: Option<Style>)
    ensures r.Some? <==> IsStyleKey(key)
  {
    if key == "qt6gtk2" || key == "qt5gtk2" then Some(GtkStyle) else None
  }

  /** Matching is case-sensitive, and "gtk2", a theme key, is not a style key. */
  lemma StyleKeysAreExact()
    ensures Create("QT6GTK2").None? && Create("Qt5Gtk2").None?
    ensures Create("gtk2").None?
  {
  }

  /** Every key the style plugin accepts is accepted by the theme plugin. */
  lemma StyleKeysAreThemeKeys(key: string, params: seq<string>)
    requires Create(key).Some?
    ensures ThemePlugin.Create(key, params).Some?
  {
    ThemePlugin.ToLowerKeepsLowercase(key);
  }

  /**
   * The style name the theme advertises through the StyleNames hint is
   * one the style plugin creates a style for.
   */
  lemma AdvertisedStyleIsCreated(gtkSetting: string -> string, baseHint: Gtk2Theme.ThemeHint -> Gtk2Theme.Variant)
    ensures var v := Gtk2Theme.ThemeHintValue(Gtk2Theme.StyleNames, gtkSetting, baseHint);
      v.StringListValue? && |v.list| == 1 && Create(v.list[0]).Some?
  {
  }
}
