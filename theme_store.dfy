/** The theme slice: one mode string, persisted under a fixed storage key. */
module ThemeStore {
  import opened Wrappers
  import opened BrowserStorage

  const ThemeStorageKey: string := "gochatroom-theme"
  const Cyberpunk: string := "cyberpunk"
  const Light: string := "light"

  /** The two modes the type admits; a stored value is not checked against
      them, so the slice's mode is any string. */
  predicate IsThemeMode(mode: string) {
    mode == Cyberpunk || mode == Light
  }

  /** The initial mode: the stored value unless it is missing or empty,
      else cyberpunk. */
  function InitialTheme(stored: Option<string>): (mode: string)
    ensures stored.Some? && stored.value != "" ==> mode == stored.value
    ensures stored.None? || stored.value == "" ==> mode == Cyberpunk
    ensures mode != ""
  {
    if stored.Some? && stored.value != "" then stored.value else Cyberpunk
  }

  /** The mode after a toggle: light from cyberpunk, cyberpunk from
      anything else. */
  function Toggled(mode: string): (r: string)
    ensures IsThemeMode(r)
    ensures r == Light <==> mode == Cyberpunk
  {
    if mode == Cyberpunk then Light else Cyberpunk
  }

  lemma ToggleTwice(mode: string)
    requires IsThemeMode(mode)
    ensures Toggled(Toggled(mode)) == mode
  {
  }

  /** An unchecked stored value is not restored by two toggles: the first
      one already lands on cyberpunk. */
  lemma ToggleTwiceInvalid(mode: string)
    requires !IsThemeMode(mode)
    ensures Toggled(mode) == Cyberpunk && Toggled(Toggled(mode)) == Light
    ensures Toggled(Toggled(mode)) != mode
  {
  }

  class ThemeSlice {
    const storage: LocalStorage
    var mode: string

    constructor(storage: LocalStorage)
      ensures this.storage == storage
      ensures mode == InitialTheme(storage.GetItem(ThemeStorageKey))
    {
      this.storage := storage;
      mode := InitialTheme(storage.GetItem(ThemeStorageKey));
    }

    method SetTheme(payload: string)
      modifies this, storage
      ensures mode == payload
      ensures storage.items == old(storage.items)[ThemeStorageKey := payload]
    {
      mode := payload;
      storage.SetItem(ThemeStorageKey, payload);
    }

    method ToggleTheme()
      modifies this, storage
      ensures mode == Toggled(old(mode))
      ensures storage.items == old(storage.items)[ThemeStorageKey := mode]
    {
      var newMode := if mode == Cyberpunk then Light else Cyberpunk;
      mode := newMode;
      storage.SetItem(ThemeStorageKey, newMode);
    }
  }
}
