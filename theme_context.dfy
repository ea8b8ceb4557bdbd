/**
 * The theme cell and its mirroring onto storage and the document root
 * (src/context/ThemeContext.tsx).
 *
 * The theme is kept as the raw string because the stored value is cast to the
 * theme type without being checked: whatever string the storage holds becomes
 * the current theme.
 */
module ThemeContext {
  import opened Wrappers

  const DarkTheme := "dark"
  const LightTheme := "light"

  /** The storage key, the root attribute and the root class the effect writes. */
  const StorageKey := "theme"
  const ThemeAttribute := "data-theme"
  const DarkClass := "dark"

  /**
   * `getInitialTheme`: a non-empty stored string wins unvalidated; otherwise
   * the OS preference is consulted, but both of its outcomes are 'dark'.
   * An empty stored string is falsy in JavaScript and falls through.
   */
  function InitialTheme(stored: Option<string>, prefersDark: bool): (r: string)
    ensures stored.Some? && stored.value != "" ==> r == stored.value
    ensures r != ""
  {
    if stored.Some? && stored.value != "" then stored.value
    else if prefersDark then DarkTheme
    else DarkTheme
  }

  /** With nothing usable stored, the start-up theme is dark whatever the OS says. */
  lemma InitialThemeWithoutStorage(stored: Option<string>, prefersDark: bool)
    requires stored.None? || stored.value == ""
    ensures InitialTheme(stored, prefersDark) == DarkTheme
  {
  }

  /** The OS preference never changes the start-up theme. */
  lemma InitialThemeIgnoresPreference(stored: Option<string>)
    ensures InitialTheme(stored, true) == InitialTheme(stored, false)
  {
  }

  /** The start-up scenarios: stored light wins; no storage gives dark even when the OS prefers light. */
  lemma InitialThemeScenarios()
    ensures InitialTheme(Some(LightTheme), false) == LightTheme
    ensures InitialTheme(Some(LightTheme), true) == LightTheme
    ensures InitialTheme(None, true) == DarkTheme
    ensures InitialTheme(None, false) == DarkTheme
    ensures InitialTheme(Some("blue"), true) == "blue"
  {
  }

  /** `toggleTheme`'s updater: 'dark' becomes 'light', any other string 'dark'. */
  function NextTheme(theme: string): (r: string)
    ensures r == LightTheme <==> theme == DarkTheme
    ensures r == DarkTheme || r == LightTheme
    ensures r != theme
  {
    if theme == DarkTheme then LightTheme else DarkTheme
  }

  /** On the two valid themes toggling twice restores the original. */
  lemma NextThemeTwice(theme: string)
    requires theme == DarkTheme || theme == LightTheme
    ensures NextTheme(NextTheme(theme)) == theme
  {
  }

  /** An unrecognised stored theme toggles to dark, and toggling twice does not restore it. */
  lemma NextThemeInvalid(theme: string)
    requires theme != DarkTheme && theme != LightTheme
    ensures NextTheme(theme) == DarkTheme
    ensures NextTheme(NextTheme(theme)) == LightTheme != theme
  {
  }

  /** The document root: its attributes and its class list. */
  datatype Root = Root(attributes: map<string, string>, classes: set<string>)

  /** The state the effect writes: storage, `data-theme` and the `dark` class. */
  class ThemeProvider {
    var theme: string
    var stored: Option<string>
    var root: Root

    /** Storage and root agree with the theme; holds after mount and after each change. */
    ghost predicate Mirrored()
      reads this
    {
      && stored == Some(theme)
      && ThemeAttribute in root.attributes
      && root.attributes[ThemeAttribute] == theme
      && (DarkClass in root.classes <==> theme == DarkTheme)
    }

    /** Mount: resolve the initial theme from the environment, then run the effect. */
    constructor (storage: Option<string>, prefersDark: bool, documentRoot: Root)
      ensures theme == InitialTheme(storage, prefersDark)
      ensures Mirrored()
      ensures root.attributes == documentRoot.attributes[ThemeAttribute := theme]
      ensures root.classes == if theme == DarkTheme then documentRoot.classes + {DarkClass}
                              else documentRoot.classes - {DarkClass}
    {
      theme := InitialTheme(storage, prefersDark);
      stored := storage;
      root := documentRoot;
      new;
      MirrorTheme();
    }

    /** The effect: write storage, set `data-theme`, add or remove `dark`. */
    method MirrorTheme()
      modifies this
      ensures theme == old(theme)
      ensures Mirrored()
      ensures stored == Some(theme)
      ensures root.attributes == old(root.attributes)[ThemeAttribute := theme]
      ensures root.classes == if theme == DarkTheme then old(root.classes) + {DarkClass}
                              else old(root.classes) - {DarkClass}
    {
      stored := Some(theme);
      root := root.(attributes := root.attributes[ThemeAttribute := theme]);
      if theme == DarkTheme {
        root := root.(classes := root.classes + {DarkClass});
      } else {
        root := root.(classes := root.classes - {DarkClass});
      }
    }

    /** `toggleTheme`, followed by the effect the change triggers. */
    method ToggleTheme()
      modifies this
      ensures theme == NextTheme(old(theme))
      ensures Mirrored()
      ensures root.attributes == old(root.attributes)[ThemeAttribute := theme]
      ensures root.classes == if theme == DarkTheme then old(root.classes) + {DarkClass}
                              else old(root.classes) - {DarkClass}
    {
      theme := NextTheme(theme);
      MirrorTheme();
    }
  }

  /** Toggling twice from a valid theme restores the theme and the stored value. */
  method ToggleTwice(p: ThemeProvider)
    requires p.theme == DarkTheme || p.theme == LightTheme
    modifies p
    ensures p.theme == old(p.theme)
    ensures p.stored == Some(old(p.theme))
    ensures p.Mirrored()
  {
    p.ToggleTheme();
    p.ToggleTheme();
  }

  /**
   * Load with nothing stored and an OS preferring light, toggle once, reload
   * with the stored value: dark, light, then light again from storage.
   */
  method ThemeScenario(documentRoot: Root)
    returns (first: string, firstDark: bool, toggled: string, toggledDark: bool, reloaded: string)
    ensures first == DarkTheme && firstDark
    ensures toggled == LightTheme && !toggledDark
    ensures reloaded == LightTheme
  {
    var p := new ThemeProvider(None, false, documentRoot);
    first := p.theme;
    firstDark := DarkClass in p.root.classes;
    p.ToggleTheme();
    toggled := p.theme;
    toggledDark := DarkClass in p.root.classes;
    var q := new ThemeProvider(p.stored, true, documentRoot);
    reloaded := q.theme;
  }
}
