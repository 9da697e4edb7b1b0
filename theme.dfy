/**
  Theme preference logic (src/lib/theme.ts): normalising a stored string to a
  preference, resolving a preference to light or dark against the OS
  colour-scheme signal, and applying a preference to the page.

  The browser capabilities are modelled as the fields of a `Host`: local
  storage is a map from keys to strings, the `dark` class on the document
  root is a boolean, and `matchMedia('(prefers-color-scheme: dark)')` is an
  optional boolean that is absent when `window.matchMedia` is not a function.
*/
module Theme {
  import opened Wrappers

  /** The user's preference; `Auto` follows the operating system. */
  datatype ThemePreference = Light | Dark | Auto

  /** The local-storage key under which the raw preference is kept. */
  const StorageKey: string := "dendrite-echo-theme"

  /** The string a preference is written as. */
  function Name(p: ThemePreference): string
  {
    match p
    case Light => "light"
    case Dark => "dark"
    case Auto => "auto"
  }

  /** Distinct preferences are stored as distinct strings. */
  lemma NameInjective(p: ThemePreference, q: ThemePreference)
    ensures Name(p) == Name(q) <==> p == q
  {
  }

  /** `localStorage.getItem(key)`: the stored string, or `null` (None). */
  function GetItem(storage: map<string, string>, key: string): (v: Option<string>)
    ensures v.Some? <==> key in storage
    ensures v.Some? ==> v.value == storage[key]
  {
    if key in storage then Some(storage[key]) else None
  }

  /** `isValidTheme`: the value is the name of one of the three preferences. */
  function IsValidTheme(value: Option<string>): (b: bool)
    ensures b <==> exists p :: value == Some(Name(p))
  {
    if value == Some("light") then
      assert value == Some(Name(Light)); true
    else if value == Some("dark") then
      assert value == Some(Name(Dark)); true
    else if value == Some("auto") then
      assert value == Some(Name(Auto)); true
    else
      false
  }

  /** The preference a valid stored string names. */
  function Parse(value: string): (p: ThemePreference)
    requires IsValidTheme(Some(value))
    ensures Name(p) == value
  {
    if value == "light" then Light else if value == "dark" then Dark else Auto
  }

  /**
    `getStoredTheme`: outside a browser `Auto`; in a browser the stored value
    when it names a preference and `Auto` otherwise, also when nothing is stored.
  */
  function GetStoredTheme(isBrowser: bool, storage: map<string, string>): (p: ThemePreference)
    ensures !isBrowser ==> p == Auto
    ensures isBrowser && IsValidTheme(GetItem(storage, StorageKey)) ==> GetItem(storage, StorageKey) == Some(Name(p))
    ensures isBrowser && !IsValidTheme(GetItem(storage, StorageKey)) ==> p == Auto
  {
    if !isBrowser then Auto
    else
      var stored := GetItem(storage, StorageKey);
      if IsValidTheme(stored) then Parse(stored.value) else Auto
  }

  /**
    `resolveTheme`: `signal` is what `matchMedia` reports about a dark OS
    preference, None when there is no browser or no `matchMedia`.
  */
  function ResolveTheme(p: ThemePreference, signal: Option<bool>): (r: ThemePreference)
    ensures r != Auto
    ensures p != Auto ==> r == p
    ensures p == Auto ==> (r == Dark <==> signal == Some(true))
  {
    if p != Auto then p
    else if signal.Some? then (if signal.value then Dark else Light)
    else Light
  }

  /** Resolving an already resolved theme changes nothing, whatever the signal. */
  lemma ResolveIdempotent(p: ThemePreference, s: Option<bool>, s': Option<bool>)
    ensures ResolveTheme(ResolveTheme(p, s), s') == ResolveTheme(p, s)
  {
  }

  /** Writing a preference's name under the key and reading it back gives that preference. */
  lemma StoredRoundTrip(storage: map<string, string>, p: ThemePreference)
    ensures GetStoredTheme(true, storage[StorageKey := Name(p)]) == p
  {
    var s := storage[StorageKey := Name(p)];
    assert GetItem(s, StorageKey) == Some(Name(p));
    NameInjective(p, Parse(Name(p)));
  }

  /** Empty storage gives `Auto`. */
  lemma EmptyStorageIsAuto(isBrowser: bool)
    ensures GetStoredTheme(isBrowser, map[]) == Auto
  {
  }

  /** Start-up (`applyTheme(getStoredTheme())`) stores a value that reads back unchanged. */
  lemma StartupIsStable(storage: map<string, string>)
    ensures var p := GetStoredTheme(true, storage);
      GetStoredTheme(true, storage[StorageKey := Name(p)]) == p
  {
    StoredRoundTrip(storage, GetStoredTheme(true, storage));
  }

  /** The page's host: whether it is a browser, and the three capabilities. */
  class Host {
    /** `typeof window !== 'undefined' && typeof document !== 'undefined'`. */
    const isBrowser: bool
    /** `matchMedia('(prefers-color-scheme: dark)').matches`; None when `matchMedia` is missing. */
    const prefersDark: Option<bool>
    /** `window.localStorage`. */
    var storage: map<string, string>
    /** Whether the document root carries the `dark` class. */
    var darkClass: bool

    constructor (isBrowser: bool, prefersDark: Option<bool>, storage: map<string, string>, darkClass: bool)
      ensures this.isBrowser == isBrowser && this.prefersDark == prefersDark
      ensures this.storage == storage && this.darkClass == darkClass
    {
      this.isBrowser := isBrowser;
      this.prefersDark := prefersDark;
      this.storage := storage;
      this.darkClass := darkClass;
    }

    /** The OS dark-mode signal as `resolveTheme` sees it. */
    function OsSignal(): (s: Option<bool>)
      ensures !isBrowser ==> s == None
      ensures isBrowser ==> s == prefersDark
    {
      if isBrowser then prefersDark else None
    }

    /**
      `applyTheme`: outside a browser nothing changes; in a browser the `dark`
      class is set exactly when the preference resolves to dark, and the raw
      preference (not the resolved one) is stored under the key, so that it
      reads back unchanged.
    */
    method ApplyTheme(p: ThemePreference)
      modifies this
      ensures !isBrowser ==> storage == old(storage) && darkClass == old(darkClass)
      ensures isBrowser ==> storage == old(storage)[StorageKey := Name(p)]
      ensures isBrowser ==> (darkClass <==> ResolveTheme(p, OsSignal()) == Dark)
      ensures isBrowser ==> GetStoredTheme(isBrowser, storage) == p
    {
      if !isBrowser {
        return;
      }
      var resolved := ResolveTheme(p, OsSignal());
      darkClass := resolved == Dark;
      StoredRoundTrip(storage, p);
      storage := storage[StorageKey := Name(p)];
    }
  }
}
