/** The theme provider: the starting theme, the toggle, and the effect that keeps
    the root element's classes and browser storage in step with the theme. */
module ThemeContext {
  import opened Common

  const Light := "light"
  const Dark := "dark"

  /** The `useState` initializer: a non-empty stored theme wins, then the system's
      dark preference, then light. */
  function InitialTheme(stored: Option<string>, prefersDark: bool): (theme: string)
    ensures theme != ""
    ensures stored.Some? && stored.value != "" ==> theme == stored.value
    ensures (stored.None? || stored.value == "") ==> (theme == Dark <==> prefersDark) && (theme == Light <==> !prefersDark)
  {
    if stored.Some? && stored.value != "" then stored.value
    else if prefersDark then Dark
    else Light
  }

  /** `prevTheme === 'light' ? 'dark' : 'light'`. */
  function Toggle(theme: string): (next: string)
    ensures next == Light || next == Dark
    ensures next == Dark <==> theme == Light
  {
    if theme == Light then Dark else Light
  }

  /** Toggling twice restores light and dark, and only those: any other stored value ends up dark. */
  lemma ToggleTwice(theme: string)
    ensures Toggle(Toggle(theme)) == theme <==> theme == Light || theme == Dark
    ensures theme != Light && theme != Dark ==> Toggle(Toggle(theme)) == Dark
  {
  }

  /** The document root and browser storage the provider writes to. */
  class ThemeRoot {
    var theme: string
    var classes: set<string>
    var storage: map<string, string>

    /** The effect has run for the current theme. */
    predicate Valid()
      reads this
    {
      && theme != ""
      && (Dark in classes <==> theme == Dark)
      && "theme" in storage && storage["theme"] == theme
    }

    /** Mounting: the initial theme is read from storage and the effect runs once. */
    constructor (classes0: set<string>, storage0: map<string, string>, prefersDark: bool)
      ensures theme == InitialTheme(if "theme" in storage0 then Some(storage0["theme"]) else None, prefersDark)
      ensures classes - {Dark} == classes0 - {Dark}
      ensures storage == storage0["theme" := theme]
      ensures Valid()
    {
      theme := InitialTheme(if "theme" in storage0 then Some(storage0["theme"]) else None, prefersDark);
      classes := classes0;
      storage := storage0;
      new;
      ApplyTheme();
    }

    /** The effect on `[theme]`: the `dark` class follows the theme and the theme is stored. */
    method ApplyTheme()
      modifies this`classes, this`storage
      ensures Valid() <==> theme != ""
      ensures classes - {Dark} == old(classes) - {Dark}
      ensures storage == old(storage)["theme" := theme]
    {
      if theme == Dark {
        classes := classes + {Dark};
      } else {
        classes := classes - {Dark};
      }
      storage := storage["theme" := theme];
    }

    /** `toggleTheme` followed by the effect it triggers. */
    method ToggleTheme()
      requires Valid()
      modifies this
      ensures theme == Toggle(old(theme))
      ensures classes - {Dark} == old(classes) - {Dark}
      ensures storage == old(storage)["theme" := theme]
      ensures Valid()
    {
      theme := Toggle(theme);
      ApplyTheme();
    }
  }

  /** What the effect stores is what the next visit starts with, whatever the system prefers. */
  lemma ReloadKeepsTheme(storage: map<string, string>, prefersDark: bool)
    requires "theme" in storage && storage["theme"] != ""
    ensures InitialTheme(Some(storage["theme"]), prefersDark) == storage["theme"]
  {
  }
}
