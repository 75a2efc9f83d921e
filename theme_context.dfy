/** The colour theme of `src/context/ThemeContext.tsx`: the chosen theme, the
    "light"/"dark" class on the document root, the `isDarkMode` flag and the
    "theme" entry of local storage, plus the header toggle of
    `src/components/Layout.tsx`. The theme is a string: a stored value is cast
    to the theme type without a check, so any non-empty stored string becomes
    the theme. The system preference (`prefers-color-scheme: dark`) is a
    parameter. */
module ThemeContext {
  import opened Js

  const Light := "light"
  const Dark := "dark"
  const SystemTheme := "system"

  predicate IsTheme(t: string) {
    t == Light || t == Dark || t == SystemTheme
  }

  /** The initial theme: the stored value if it is truthy, else "system". */
  function InitialTheme(saved: Option<string>): (t: string)
    ensures saved.Some? && saved.value != "" ==> t == saved.value
    ensures saved.None? || saved.value == "" ==> t == SystemTheme
  {
    if Truthy(saved) then saved.value else SystemTheme
  }

  /** The class the system preference asks for. */
  function SystemClass(systemDark: bool): (c: string)
    ensures systemDark <==> c == Dark
    ensures IsTheme(c) && c != SystemTheme
  {
    if systemDark then Dark else Light
  }

  /** The class a theme puts on the root: the system preference for "system",
      the theme itself otherwise. */
  function ResolveTheme(theme: string, systemDark: bool): (c: string)
    ensures theme == SystemTheme ==> c == SystemClass(systemDark)
    ensures theme != SystemTheme ==> c == theme
    ensures IsTheme(theme) ==> c == Light || c == Dark
  {
    if theme == SystemTheme then SystemClass(systemDark) else theme
  }

  /** `root.classList.remove("light", "dark")` followed by `add(cls)`: every
      other class is kept, and when `cls` is a mode class exactly one of the two
      mode classes remains. */
  function WithModeClass(root: set<string>, cls: string): (r: set<string>)
    ensures cls in r
    ensures forall c :: c != Light && c != Dark ==> (c in r <==> c in root || c == cls)
    ensures cls == Light || cls == Dark ==> (Light in r <==> Light == cls) && (Dark in r <==> Dark == cls)
  {
    (root - {Light, Dark}) + {cls}
  }

  /** The header toggle: light, then dark, then system, then light again. */
  function NextTheme(theme: string): (t: string)
    ensures IsTheme(t)
    ensures theme == Light ==> t == Dark
    ensures theme == Dark ==> t == SystemTheme
    ensures theme != Light && theme != Dark ==> t == Light
  {
    if theme == Light then Dark else if theme == Dark then SystemTheme else Light
  }

  /** Three presses of the toggle return to any valid theme, and the toggle
      visits three different themes on the way. */
  lemma ToggleCycle(theme: string)
    requires IsTheme(theme)
    ensures NextTheme(NextTheme(NextTheme(theme))) == theme
    ensures NextTheme(theme) != theme && NextTheme(NextTheme(theme)) != theme
  {
  }

  /** The provider's state. `listening` records whether the system-change
      listener is registered, which the second effect does only while the
      theme is "system". */
  class ThemeProvider {
    var theme: string
    var isDarkMode: bool
    var rootClasses: set<string>
    var stored: Option<string>
    var listening: bool

    /** The state before the first render's effects run. */
    constructor (saved: Option<string>, rootClasses: set<string>)
      ensures theme == InitialTheme(saved) && !isDarkMode && stored == saved
      ensures this.rootClasses == rootClasses && !listening
    {
      theme := InitialTheme(saved);
      isDarkMode := false;
      this.rootClasses := rootClasses;
      stored := saved;
      listening := false;
    }

    /** The two effects that run whenever `theme` changes (and on mount):
        reset the mode class, persist the theme, set `isDarkMode`, and register
        the system listener exactly when the theme is "system". */
    method ApplyThemeEffects(systemDark: bool)
      modifies this
      ensures theme == old(theme) && stored == Some(theme)
      ensures rootClasses == WithModeClass(old(rootClasses), ResolveTheme(theme, systemDark))
      ensures isDarkMode <==> ResolveTheme(theme, systemDark) == Dark
      ensures listening <==> theme == SystemTheme
    {
      rootClasses := rootClasses - {Light, Dark};
      stored := Some(theme);
      if theme == SystemTheme {
        var systemTheme := if systemDark then Dark else Light;
        rootClasses := rootClasses + {systemTheme};
        isDarkMode := systemTheme == Dark;
      } else {
        rootClasses := rootClasses + {theme};
        isDarkMode := theme == Dark;
      }
      listening := theme == SystemTheme;
    }

    /** `setTheme`: a different theme re-runs the effects; the same theme
        changes nothing. */
    method SetTheme(t: string, systemDark: bool)
      modifies this
      ensures theme == t
      ensures t == old(theme) ==>
        && rootClasses == old(rootClasses) && stored == old(stored)
        && isDarkMode == old(isDarkMode) && listening == old(listening)
      ensures t != old(theme) ==>
        && stored == Some(t)
        && rootClasses == WithModeClass(old(rootClasses), ResolveTheme(t, systemDark))
        && (isDarkMode <==> ResolveTheme(t, systemDark) == Dark)
        && (listening <==> t == SystemTheme)
    {
      if t != theme {
        theme := t;
        ApplyThemeEffects(systemDark);
      }
    }

    /** The system-change listener: while registered it moves the mode class
        and `isDarkMode` to the new preference; otherwise nothing happens. */
    method OnSystemChange(systemDark: bool)
      modifies this`rootClasses, this`isDarkMode
      ensures listening ==> rootClasses == WithModeClass(old(rootClasses), SystemClass(systemDark))
      ensures listening ==> (isDarkMode <==> systemDark)
      ensures !listening ==> rootClasses == old(rootClasses) && isDarkMode == old(isDarkMode)
    {
      if listening {
        var systemTheme := if systemDark then Dark else Light;
        rootClasses := (rootClasses - {Light, Dark}) + {systemTheme};
        isDarkMode := systemTheme == Dark;
      }
    }

    /** The header toggle button. */
    method Toggle(systemDark: bool)
      modifies this
      ensures theme == NextTheme(old(theme)) && stored == Some(theme)
      ensures rootClasses == WithModeClass(old(rootClasses), ResolveTheme(theme, systemDark))
      ensures (Light in rootClasses) != (Dark in rootClasses)
      ensures isDarkMode <==> Dark in rootClasses
      ensures listening <==> theme == SystemTheme
    {
      SetTheme(NextTheme(theme), systemDark);
    }
  }
}
