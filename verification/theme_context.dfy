/**
 * The theme store: the chosen theme, resolved against the operating system's
 * colour scheme into the theme actually shown.
 *
 * The stored value is kept as its string tag: a saved string is taken as the
 * theme without being checked, so the state can hold a tag that names no
 * Theme member.
 */
module ThemeContext {
  import opened Types

  /**
   * `theme === SYSTEM ? (os || 'light') : theme === DARK ? 'dark' : 'light'`,
   * where `os` is the scheme the platform reports (`None` for null). The
   * empty string counts as absent.
   */
  function EffectiveTheme(themeTag: string, os: Option<string>): (r: string)
    ensures themeTag == ThemeTag(System) && os.Some? && os.value != "" ==> r == os.value
    ensures themeTag == ThemeTag(System) && (os.None? || os.value == "") ==> r == "light"
    ensures themeTag == ThemeTag(Dark) ==> r == "dark"
    ensures themeTag != ThemeTag(System) && themeTag != ThemeTag(Dark) ==> r == "light"
  {
    if themeTag == "system" then
      (if os.Some? && os.value != "" then os.value else "light")
    else if themeTag == "dark" then "dark"
    else "light"
  }

  /** Dark and Light ignore the platform's scheme. */
  lemma FixedThemesIgnoreSystem(os1: Option<string>, os2: Option<string>)
    ensures EffectiveTheme(ThemeTag(Dark), os1) == EffectiveTheme(ThemeTag(Dark), os2) == "dark"
    ensures EffectiveTheme(ThemeTag(Light), os1) == EffectiveTheme(ThemeTag(Light), os2) == "light"
  {
  }

  /** When the platform reports light, dark or nothing, the result is light or dark. */
  lemma EffectiveThemeIsLightOrDark(themeTag: string, os: Option<string>)
    requires os == None || os == Some("light") || os == Some("dark")
    ensures EffectiveTheme(themeTag, os) == "light" || EffectiveTheme(themeTag, os) == "dark"
  {
  }

  /** What reading the saved theme produced. */
  datatype ThemeRead = ReadFailed | Read(saved: Option<string>)

  class ThemeStore {
    var theme: string

    /** The initial theme is SYSTEM. */
    constructor ()
      ensures theme == ThemeTag(System)
    {
      theme := ThemeTag(System);
    }

    /**
     * `loadTheme`: a non-empty saved value becomes the theme as it is; no
     * value, an empty one, or a failed read leave the theme unchanged.
     */
    method LoadTheme(result: ThemeRead)
      modifies this
      ensures result.Read? && result.saved.Some? && result.saved.value != "" ==> theme == result.saved.value
      ensures !(result.Read? && result.saved.Some? && result.saved.value != "") ==> theme == old(theme)
    {
      match result
      case ReadFailed =>
      case Read(saved) =>
        if saved.Some? && saved.value != "" {
          theme := saved.value;
        }
    }

    method SetTheme(t: Theme)
      modifies this
      ensures theme == ThemeTag(t)
    {
      theme := ThemeTag(t);
    }
  }
}
