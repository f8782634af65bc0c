/** The browser cookie store as the client reads and writes it through react-cookie. */
module Cookies {
  import opened Wrappers

  /** The options the client passes to `cookies.set`/`remove`: `path` and `maxAge` in seconds. */
  datatype CookieOptions = CookieOptions(path: Option<string>, maxAge: Option<int>)

  datatype Cookie = Cookie(value: string, options: CookieOptions)

  const AccessToken := "accessToken"

  /** `maxAge: 60 * 60 * 24`: one day, in seconds. */
  const OneDay := 60 * 60 * 24

  /** `{ path: '/', maxAge: 60 * 60 * 24 }`, used by every login path. */
  const SiteWideForOneDay := CookieOptions(Some("/"), Some(OneDay))

  /** `cookies.set(name, value)` with no options, as the token refresh does. */
  const NoOptions := CookieOptions(None, None)

  class CookieJar {
    var entries: map<string, Cookie>

    constructor()
      ensures entries == map[]
    {
      entries := map[];
    }

    /** `cookies.get(name)`: the stored value, `undefined` when there is none. */
    function Get(name: string): (v: Option<string>)
      reads this
      ensures v.Some? <==> name in entries
      ensures v.Some? ==> v.value == entries[name].value
    {
      if name in entries then Some(entries[name].value) else None
    }

    method Set(name: string, value: string, options: CookieOptions)
      modifies this
      ensures entries == old(entries)[name := Cookie(value, options)]
      ensures Get(name) == Some(value)
    {
      entries := entries[name := Cookie(value, options)];
    }

    method Remove(name: string, options: CookieOptions)
      modifies this
      ensures entries == old(entries) - {name}
      ensures Get(name).None?
    {
      entries := entries - {name};
    }
  }
}
