/**
 * The light/dark theme switch: the theme is read once from storage
 * ("lawflow.theme.v1"), and every value it takes is written to the page's
 * `data-theme` attribute and back to storage.
 */
module ThemeToggle {
  import opened Common

  datatype Theme = Light | Dark

  function ThemeName(t: Theme): string
  {
    if t == Light then "light" else "dark"
  }

  /**
   * The initial theme from the saved text; `None` stands for no window, a
   * missing key, or storage that throws.
   */
  function InitialTheme(saved: Option<string>): (r: Theme)
    ensures r == Light <==> saved == Some("light")
    ensures saved == Some("dark") ==> r == Dark
  {
    if saved == Some("light") then Light else Dark
  }

  function Flip(t: Theme): (r: Theme)
    ensures r != t
  {
    if t == Light then Dark else Light
  }

  /** The `data-theme` attribute: "light" for the light theme, removed for the dark one. */
  function AttributeFor(t: Theme): (r: Option<string>)
    ensures r.Some? <==> t == Light
    ensures r.Some? ==> r.value == ThemeName(t)
  {
    if t == Light then Some("light") else None
  }

  /** A persisted theme is the one read back next time. */
  lemma PersistedThemeReloads(t: Theme)
    ensures InitialTheme(Some(ThemeName(t))) == t
  {
  }

  lemma FlipTwice(t: Theme)
    ensures Flip(Flip(t)) == t
  {
  }

  class ThemeSwitch {
    var theme: Theme
    var attribute: Option<string>
    var stored: Option<string>

    /** Mounting picks the initial theme and runs the effect once. */
    constructor(saved: Option<string>)
      ensures theme == InitialTheme(saved)
      ensures attribute == AttributeFor(theme) && stored == Some(ThemeName(theme))
    {
      theme := InitialTheme(saved);
      attribute := AttributeFor(InitialTheme(saved));
      stored := Some(ThemeName(InitialTheme(saved)));
    }

    /** `toggleTheme` followed by the effect it triggers. */
    method Toggle()
      modifies this
      ensures theme == Flip(old(theme))
      ensures attribute == AttributeFor(theme) && stored == Some(ThemeName(theme))
      ensures InitialTheme(stored) == theme
    {
      theme := Flip(theme);
      attribute := AttributeFor(theme);
      stored := Some(ThemeName(theme));
      PersistedThemeReloads(theme);
    }
  }
}
