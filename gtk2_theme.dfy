/**
 * The decision tables of the platform theme
 * (src/qt6gtk2-qtplugin/qt6gtk2theme.cpp): which theme hints it answers
 * itself, where the font name comes from, and which dialogs get a native
 * GTK helper.
 *
 * GTK settings are read through gtk_settings_get_default, and the
 * fallbacks come from the GNOME base theme; both are parameters here.
 */
module Gtk2Theme {
  import opened Wrappers

  /** The QPlatformTheme hints the theme overrides; every other hint is OtherHint. */
  datatype ThemeHint =
    | SystemIconThemeName
    | SystemIconFallbackThemeName
    | StyleNames
    | ShowShortcutsInContextMenus
    | OtherHint(id: int)

  /** The QVariant values the hints produce. */
  datatype Variant = StringValue(s: string) | StringListValue(list: seq<string>) | BoolValue(b: bool)

  /** The style name the theme advertises. */
  const StyleName: string := "qt6gtk2"

  /** The hints the theme answers itself rather than passing to the base theme. */
  predicate Overrides(hint: ThemeHint)
  {
    !hint.OtherHint?
  }

  /**
   * themeHint: the icon theme names read from the GTK settings
   * "gtk-icon-theme-name" and "gtk-fallback-icon-theme", the one style
   * name "qt6gtk2", shortcuts shown in context menus, and the base theme's
   * answer for every other hint.
   */
  function ThemeHintValue(hint: ThemeHint, gtkSetting: string -> string, baseHint: ThemeHint -> Variant): (v: Variant)
    ensures !Overrides(hint) ==> v == baseHint(hint)
    ensures hint == StyleNames ==> v == StringListValue([StyleName])
    ensures hint == ShowShortcutsInContextMenus ==> v == BoolValue(true)
    ensures hint == SystemIconThemeName ==> v == StringValue(gtkSetting("gtk-icon-theme-name"))
    ensures hint == SystemIconFallbackThemeName ==> v == StringValue(gtkSetting("gtk-fallback-icon-theme"))
  {
    match hint
    case SystemIconThemeName => StringValue(gtkSetting("gtk-icon-theme-name"))
    case SystemIconFallbackThemeName => StringValue(gtkSetting("gtk-fallback-icon-theme"))
    case StyleNames => StringListValue([StyleName])
    case ShowShortcutsInContextMenus => BoolValue(true)
    case OtherHint(_) => baseHint(hint)
  }

  /**
   * Only the GTK settings decide the overridden hints: two base themes
   * give the same answers on them, and two GTK configurations give the
   * same answers on every hint other than the icon theme names.
   */
  lemma ThemeHintSources(hint: ThemeHint, setting1: string -> string, setting2: string -> string,
                         base1: ThemeHint -> Variant, base2: ThemeHint -> Variant)
    ensures Overrides(hint) ==> ThemeHintValue(hint, setting1, base1) == ThemeHintValue(hint, setting1, base2)
    ensures hint != SystemIconThemeName && hint != SystemIconFallbackThemeName && base1 == base2
            ==> ThemeHintValue(hint, setting1, base1) == ThemeHintValue(hint, setting2, base2)
  {
  }

  /**
   * gtkFontName: the "gtk-font-name" setting when it is not empty, the
   * base theme's font name otherwise.
   */
  function GtkFontName(gtkSetting: string -> string, baseFontName: string): (r: string)
    ensures gtkSetting("gtk-font-name") != "" ==> r == gtkSetting("gtk-font-name")
    ensures gtkSetting("gtk-font-name") == "" ==> r == baseFontName
    ensures r == "" <==> gtkSetting("gtk-font-name") == "" && baseFontName == ""
  {
    var configured := gtkSetting("gtk-font-name");
    if configured != "" then configured else baseFontName
  }

  /** QPlatformTheme::DialogType. */
  datatype DialogType = FileDialog | ColorDialog | FontDialog | MessageDialog

  /** The native helpers the theme can create. */
  datatype DialogHelper = ColorDialogHelper | FileDialogHelper | FontDialogHelper
  {
    /** The kind of dialog a helper implements. */
    function Serves(): DialogType
    {
      match this
      case ColorDialogHelper => ColorDialog
      case FileDialogHelper => FileDialog
      case FontDialogHelper => FontDialog
    }
  }

  /** usePlatformNativeDialog: native colour, file and font dialogs. */
  function UsePlatformNativeDialog(dialog: DialogType): (r: bool)
    ensures r <==> dialog != MessageDialog
  {
    match dialog
    case ColorDialog => true
    case FileDialog => true
    case FontDialog => true
    case _ => false
  }

  /**
   * createPlatformDialogHelper: a helper exactly for the dialogs that are
   * native, and it is the helper for that dialog; None stands for nullptr.
   */
  function CreatePlatformDialogHelper(dialog: DialogType): (r: Option<DialogHelper>)
    ensures r.Some? <==> UsePlatformNativeDialog(dialog)
    ensures r.Some? ==> r.value.Serves() == dialog
  {
    match dialog
    case ColorDialog => Some(ColorDialogHelper)
    case FileDialog => Some(FileDialogHelper)
    case FontDialog => Some(FontDialogHelper)
    case _ => None
  }

  /** Different native dialogs get different helpers. */
  lemma HelpersAreDistinct(d1: DialogType, d2: DialogType)
    requires CreatePlatformDialogHelper(d1).Some? && CreatePlatformDialogHelper(d2).Some?
    requires d1 != d2
    ensures CreatePlatformDialogHelper(d1) != CreatePlatformDialogHelper(d2)
  {
  }
}
