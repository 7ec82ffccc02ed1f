/**
 * Dark/light theme preference. Both scripts keep the theme as the `dark`
 * class on the document root and persist it under the storage key `theme`;
 * they differ only in how the initial state is resolved.
 * The browser's key-value storage is a `map<string, string>`.
 */
module Theme {
  import opened Wrappers

  const StorageKey := "theme"

  /** `localStorage.getItem(key)`: the stored string, or nothing. */
  function GetItem(storage: map<string, string>, key: string): (r: Option<string>)
    ensures r.Some? <==> key in storage
    ensures r.Some? ==> r.value == storage[key]
  {
    if key in storage then Some(storage[key]) else None
  }

  /** JavaScript truthiness of a `getItem` result: `null` and `''` are falsy. */
  predicate Truthy(stored: Option<string>) {
    stored.Some? && stored.value != ""
  }

  /** The initial-theme condition of `initializeTheme` in main.js. */
  function InitialDark(stored: Option<string>, prefersDark: bool): (dark: bool)
    ensures Truthy(stored) ==> (dark <==> stored.value == "dark")
    ensures !Truthy(stored) ==> (dark <==> prefersDark)
  {
    stored == Some("dark") || (!Truthy(stored) && prefersDark)
  }

  /** The initial-theme condition of `initThemeToggle` in script.js: no system fallback. */
  function ScriptInitialDark(stored: Option<string>): (dark: bool)
    ensures dark ==> Truthy(stored)
    ensures dark <==> InitialDark(stored, false)
  {
    stored == Some("dark")
  }

  /** The abstract state the theme toggle works on. */
  datatype ThemeState = ThemeState(dark: bool, storage: map<string, string>)

  /** The value written to storage for a given flag. */
  function Persisted(dark: bool): (v: string)
    ensures v == "dark" || v == "light"
    ensures (v == "dark") == dark
  {
    if dark then "dark" else "light"
  }

  /** The click handler shared by both scripts: flip the root class, then store the new theme. */
  function Toggled(s: ThemeState): (r: ThemeState)
    ensures r.dark == !s.dark
    ensures GetItem(r.storage, StorageKey) == Some(Persisted(r.dark))
    ensures r.storage.Keys == s.storage.Keys + {StorageKey}
    ensures forall k :: k in s.storage && k != StorageKey ==> r.storage[k] == s.storage[k]
  {
    var dark := !s.dark;
    ThemeState(dark, s.storage[StorageKey := Persisted(dark)])
  }

  /** The root element's `dark` class and the storage it persists to. */
  class ThemeToggle {
    var dark: bool
    var storage: map<string, string>

    function State(): ThemeState
      reads this
    {
      ThemeState(dark, storage)
    }

    /** `initializeTheme` (main.js): `markupDark` is whether the page was served with the class already set. */
    constructor Initialize(storage: map<string, string>, prefersDark: bool, markupDark: bool)
      ensures this.storage == storage
      ensures dark == (markupDark || InitialDark(GetItem(storage, StorageKey), prefersDark))
    {
      this.storage := storage;
      var stored := GetItem(storage, StorageKey);
      dark := markupDark;
      if stored == Some("dark") || (!Truthy(stored) && prefersDark) {
        dark := true;
      }
    }

    /** `initThemeToggle` (script.js). */
    constructor InitThemeToggle(storage: map<string, string>, markupDark: bool)
      ensures this.storage == storage
      ensures dark == (markupDark || ScriptInitialDark(GetItem(storage, StorageKey)))
    {
      this.storage := storage;
      var stored := GetItem(storage, StorageKey);
      dark := markupDark;
      if stored == Some("dark") {
        dark := true;
      }
    }

    /** A click on the toggle control. */
    method Click()
      modifies this
      ensures State() == Toggled(old(State()))
    {
      dark := !dark;
      storage := storage[StorageKey := if dark then "dark" else "light"];
    }
  }

  /** main.js: dark exactly when `'dark'` is stored, or nothing (or an empty string) is stored and the system prefers dark. */
  lemma InitialDarkRule(stored: Option<string>, prefersDark: bool)
    ensures InitialDark(stored, prefersDark) <==>
            stored == Some("dark") || ((stored == None || stored == Some("")) && prefersDark)
  {
  }

  /** main.js: any other non-empty stored value, `'light'` included, overrides the system preference. */
  lemma StoredValueOverridesSystem(v: string, prefersDark: bool)
    requires v != "" && v != "dark"
    ensures !InitialDark(Some(v), prefersDark)
  {
  }

  /** The two scripts resolve the initial theme differently exactly when nothing usable is stored and the system prefers dark. */
  lemma ScriptsDisagree(stored: Option<string>, prefersDark: bool)
    ensures InitialDark(stored, prefersDark) != ScriptInitialDark(stored) <==> !Truthy(stored) && prefersDark
  {
  }

  /** Toggling twice restores the flag (the stored value then matches it). */
  lemma ToggleTwice(s: ThemeState)
    ensures Toggled(Toggled(s)).dark == s.dark
    ensures GetItem(Toggled(Toggled(s)).storage, StorageKey) == Some(Persisted(s.dark))
  {
  }

  /** What a toggle persists is what either script resolves on the next page load, whatever the system prefers. */
  lemma ToggleSurvivesReload(s: ThemeState, prefersDark: bool)
    ensures InitialDark(GetItem(Toggled(s).storage, StorageKey), prefersDark) == Toggled(s).dark
    ensures ScriptInitialDark(GetItem(Toggled(s).storage, StorageKey)) == Toggled(s).dark
  {
  }
}
