/**
  The UI store (src/stores/useUiStore.ts): the current theme preference, the
  theme it resolves to, and a counter bumped each time the dashboard opens.
  Vue refs become fields and the computed `resolvedTheme` a function.
*/
module UiStore {
  import opened Wrappers
  import opened Theme

  class UiStore {
    /** The page the store lives in. */
    const host: Host
    var themePreference: ThemePreference
    var dashboardOpenToken: nat

    /** Creating the store reads the stored preference; the token starts at 0. */
    constructor (host: Host)
      ensures this.host == host
      ensures themePreference == GetStoredTheme(host.isBrowser, host.storage)
      ensures dashboardOpenToken == 0
    {
      this.host := host;
      themePreference := GetStoredTheme(host.isBrowser, host.storage);
      dashboardOpenToken := 0;
    }

    /**
      `resolvedTheme`: never `Auto`; the preference itself when that is not
      `Auto`, and otherwise dark exactly when the OS reports dark.
    */
    function ResolvedTheme(): (t: ThemePreference)
      reads this
      ensures t != Auto
      ensures themePreference != Auto ==> t == themePreference
      ensures themePreference == Auto ==> (t == Dark <==> host.OsSignal() == Some(true))
    {
      ResolveTheme(themePreference, host.OsSignal())
    }

    /**
      `setTheme`: the preference becomes exactly `p` and is applied to the
      page (stored under the theme key, `dark` class in step with the
      resolved theme); the dashboard token is untouched.
    */
    method SetTheme(p: ThemePreference)
      modifies this, host
      ensures themePreference == p
      ensures dashboardOpenToken == old(dashboardOpenToken)
      ensures !host.isBrowser ==> host.storage == old(host.storage) && host.darkClass == old(host.darkClass)
      ensures host.isBrowser ==> host.storage == old(host.storage)[StorageKey := Name(p)]
      ensures host.isBrowser ==> (host.darkClass <==> ResolvedTheme() == Dark)
      ensures host.isBrowser ==> GetStoredTheme(host.isBrowser, host.storage) == themePreference
    {
      themePreference := p;
      host.ApplyTheme(p);
    }

    /** `markDashboardOpen`: the token goes up by exactly one; nothing else changes. */
    method MarkDashboardOpen()
      modifies this`dashboardOpenToken
      ensures dashboardOpenToken == old(dashboardOpenToken) + 1
      ensures themePreference == old(themePreference)
    {
      dashboardOpenToken := dashboardOpenToken + 1;
    }
  }
}
