/**
 * The colour theme: the chosen theme (`'light'`, `'dark'` or `'auto'`, or whatever text the store
 * held), the effective theme it resolves to, and the dark-mode flag and root class that follow it.
 * The system's colour-scheme preference is a parameter.
 */
module Theme {
  import opened Wrappers
  import opened Storage

  const Light := "light"
  const Dark := "dark"
  const Auto := "auto"

  /** The theme state holds before the store is read. */
  const InitialTheme := Dark

  /** `getSystemTheme`. */
  function SystemTheme(systemDark: bool): string {
    if systemDark then Dark else Light
  }

  /** The theme `applyTheme` puts in force: `'auto'` follows the system, any other value is taken
    * as it is. */
  function Effective(theme: string, systemDark: bool): string {
    if theme == Auto then SystemTheme(systemDark) else theme
  }

  /** Dark mode is on exactly when the effective theme is `'dark'`. */
  predicate IsDark(theme: string, systemDark: bool) {
    Effective(theme, systemDark) == Dark
  }

  /** An explicit theme decides dark mode by itself; `'auto'` gives dark mode exactly when the
    * system prefers it; and a text that is none of the three never gives dark mode. */
  lemma EffectiveSpec(theme: string, systemDark: bool)
    ensures theme == Dark ==> IsDark(theme, systemDark)
    ensures theme == Light ==> !IsDark(theme, systemDark)
    ensures theme == Auto ==> (IsDark(theme, systemDark) <==> systemDark)
    ensures theme != Dark && theme != Auto ==> !IsDark(theme, systemDark)
    ensures Effective(theme, systemDark) != Auto
  {
  }

  /** The theme `toggleTheme` chooses: light when dark mode is on, dark otherwise. */
  function ToggleChoice(isDarkMode: bool): string {
    if isDarkMode then Light else Dark
  }

  /** A toggle never chooses `'auto'` and always flips dark mode, whatever the system prefers;
    * from `'light'` or `'dark'` two toggles give the theme back, and from any theme two toggles
    * give the darkness back. */
  lemma ToggleSpec(theme: string, systemDark: bool, laterSystemDark: bool)
    ensures ToggleChoice(IsDark(theme, systemDark)) != Auto
    ensures IsDark(ToggleChoice(IsDark(theme, systemDark)), laterSystemDark) == !IsDark(theme, systemDark)
    ensures var once := ToggleChoice(IsDark(theme, systemDark));
      var twice := ToggleChoice(IsDark(once, laterSystemDark));
      IsDark(twice, laterSystemDark) == IsDark(theme, systemDark) &&
      (theme == Light || theme == Dark ==> twice == theme)
  {
  }

  /** The theme the load effect settles on: a saved non-empty text, unchecked, or else dark. */
  function LoadedTheme(saved: Option<string>): (r: string)
    ensures r != ""
    ensures saved.Some? && saved.value != "" ==> r == saved.value
  {
    if saved.Some? && saved.value != "" then saved.value else Dark
  }

  /** What the system-preference listener leaves dark mode as, as written: the listener is set up
    * once, on the first render, and tests the theme it saw then, `captured`. */
  function DarkAfterSystemChangeAsWritten(captured: string, isDarkMode: bool, systemDark: bool): bool {
    if captured == Auto then IsDark(Auto, systemDark) else isDarkMode
  }

  /** Because the listener always sees the initial `'dark'`, it never re-applies: with `'auto'`
    * chosen and a system that turns dark, dark mode stays off. */
  lemma StaleListenerIgnoresAuto()
    ensures !DarkAfterSystemChangeAsWritten(InitialTheme, IsDark(Auto, false), true)
    ensures IsDark(Auto, true)
  {
  }

  /** What the listener evidently means to do: re-apply the current theme when it is `'auto'`. */
  function DarkAfterSystemChange(theme: string, isDarkMode: bool, systemDark: bool): bool {
    if theme == Auto then IsDark(theme, systemDark) else isDarkMode
  }

  /** With the current theme tested, dark mode that was right for the old system preference is
    * right for the new one, whatever the theme. */
  lemma SystemChangeKeepsDarkModeRight(theme: string, before: bool, after: bool)
    ensures DarkAfterSystemChange(theme, IsDark(theme, before), after) == IsDark(theme, after)
  {
  }

  /** The theme provider's state: the chosen theme, the dark-mode flag, whether the root element
    * carries the `dark` class, and the store the choice is kept in. */
  class ThemeProvider {
    var theme: string
    var isDarkMode: bool
    var darkClass: bool
    const store: Store

    constructor (store: Store)
      ensures theme == InitialTheme && !isDarkMode && !darkClass && this.store == store
    {
      theme := InitialTheme;
      isDarkMode := false;
      darkClass := false;
      this.store := store;
    }

    /** Dark mode and the root class agree with the chosen theme under the given preference. */
    predicate Applied(systemDark: bool)
      reads this
    {
      isDarkMode == IsDark(theme, systemDark) && darkClass == isDarkMode
    }

    /** `applyTheme`: dark mode and the root class follow the effective theme. */
    method ApplyTheme(newTheme: string, systemDark: bool)
      modifies this
      ensures isDarkMode == IsDark(newTheme, systemDark) && darkClass == isDarkMode
      ensures theme == old(theme)
    {
      var actualTheme := Effective(newTheme, systemDark);
      isDarkMode := actualTheme == Dark;
      darkClass := actualTheme == Dark;
    }

    /** The load effect: the saved theme, or dark, is chosen and applied. */
    method Load(systemDark: bool)
      modifies this
      ensures theme == LoadedTheme(store.GetItem(ThemeKey))
      ensures Applied(systemDark)
    {
      var savedTheme := store.GetItem(ThemeKey);
      if savedTheme.Some? && savedTheme.value != "" {
        theme := savedTheme.value;
        ApplyTheme(savedTheme.value, systemDark);
      } else {
        theme := Dark;
        ApplyTheme(Dark, systemDark);
      }
    }

    /** `setTheme`: the theme is chosen, stored and applied. */
    method SetTheme(newTheme: string, systemDark: bool)
      modifies this, store
      ensures theme == newTheme && Applied(systemDark)
      ensures store.items == old(store.items)[ThemeKey := newTheme]
    {
      theme := newTheme;
      store.SetItem(ThemeKey, newTheme);
      ApplyTheme(newTheme, systemDark);
    }

    /** `toggleTheme`: light when dark mode is on, dark otherwise; when the old state was applied,
      * dark mode flips. */
    method ToggleTheme(systemDark: bool)
      modifies this, store
      ensures theme == ToggleChoice(old(isDarkMode)) && Applied(systemDark)
      ensures old(Applied(systemDark)) ==> isDarkMode == !old(isDarkMode)
      ensures store.items == old(store.items)[ThemeKey := theme]
    {
      var newTheme := ToggleChoice(isDarkMode);
      SetTheme(newTheme, systemDark);
    }

    /** The system-preference listener, testing the current theme; the state stays applied when
      * the preference changes. */
    method SystemThemeChanged(before: bool, systemDark: bool)
      modifies this
      ensures theme == old(theme)
      ensures old(Applied(before)) ==> Applied(systemDark)
    {
      if theme == Auto {
        ApplyTheme(Auto, systemDark);
      }
    }
  }
}
