/**
 * The platform theme plugin's factory (src/qt6gtk2-qtplugin/main.cpp):
 * it creates the GTK2 theme for the keys "gtk2", "qt6gtk2" and "qt5gtk2",
 * in any letter case.
 */
module ThemePlugin {
  import opened Wrappers

  /** The ASCII lowercase of c; every other character is unchanged. */
  function LowerChar(c: char): char
  {
    if 'A' <= c <= 'Z' then (c as int + 32) as char else c
  }

  predicate IsUpper(c: char)
  {
    'A' <= c <= 'Z'
  }

  /** QString::toLower on ASCII text. */
  function ToLower(s: string): (r: string)
    ensures |r| == |s|
    ensures forall i :: 0 <= i < |s| ==> r[i] == LowerChar(s[i])
    ensures forall i :: 0 <= i < |r| ==> !IsUpper(r[i])
  {
    if s == [] then [] else [LowerChar(s[0])] + ToLower(s[1..])
  }

  /** Lowercasing twice is lowercasing once. */
  lemma ToLowerIdempotent(s: string)
    ensures ToLower(ToLower(s)) == ToLower(s)
  {
    var once := ToLower(s);
    assert forall i :: 0 <= i < |once| ==> LowerChar(once[i]) == once[i];
  }

  /** Text without upper-case letters is its own lowercase. */
  lemma ToLowerKeepsLowercase(s: string)
    requires forall i :: 0 <= i < |s| ==> !IsUpper(s[i])
    ensures ToLower(s) == s
  {
  }

  /** The keys the theme answers to, in lower case. */
  predicate IsThemeKey(lowered: string)
  {
    lowered == "gtk2" || lowered == "qt6gtk2" || lowered == "qt5gtk2"
  }

  /** The theme object the factory returns. */
  datatype Theme = Qt6Gtk2Theme

  /** create: the theme when the lowercased key is a theme key, None (nullptr) otherwise; params are unused. */
  function Create(key: string, params: seq<string>): (r: Option<Theme>)
    ensures r.Some? <==> IsThemeKey(ToLower(key))
  {
    if IsThemeKey(ToLower(key)) then Some(Qt6Gtk2Theme) else None
  }

  /** The answer depends only on the lowercase of the key. */
  lemma CreateIgnoresCase(key1: string, key2: string, params1: seq<string>, params2: seq<string>)
    requires ToLower(key1) == ToLower(key2)
    ensures Create(key1, params1) == Create(key2, params2)
  {
  }

  /** A key is accepted exactly when its lowercase is. */
  lemma CreateAcceptsLowercase(key: string, params: seq<string>)
    ensures Create(key, params) == Create(ToLower(key), params)
  {
    ToLowerIdempotent(key);
  }

  /** Upper- and mixed-case spellings of the keys are accepted. */
  lemma MixedCaseKeysAccepted(params: seq<string>)
    ensures Create("GTK2", params).Some?
    ensures Create("Qt6Gtk2", params).Some?
    ensures Create("QT5GTK2", params).Some?
  {
    assert ToLower("GTK2") == "gtk2";
    assert ToLower("Qt6Gtk2") == "qt6gtk2";
    assert ToLower("QT5GTK2") == "qt5gtk2";
  }

  /** Keys that differ from the three names other than in letter case are refused. */
  lemma OtherKeysRefused(params: seq<string>)
    ensures Create("gtk3", params).None?
    ensures Create("", params).None?
    ensures Create("qt6gtk2 ", params).None?
  {
    assert ToLower("gtk3") == "gtk3";
    assert ToLower("qt6gtk2 ") == "qt6gtk2 ";
  }
}
