/**
 * The browser's cookie jar, as js-cookie exposes it to the front end: a map
 * from cookie name to value. Cookie attributes (`secure`, `sameSite`) are not
 * part of the model.
 */
module Cookies {
  import opened Js

  type Jar = map<string, string>

  const AccessToken: string := "accessToken"
  const RefreshToken: string := "refreshToken"

  /** `Cookies.get(name)`: the value, or `undefined` when there is no such cookie. */
  function Get(jar: Jar, name: string): Option<string> {
    if name in jar then Some(jar[name]) else None
  }

  /** The jar that `Cookies.set`/`Cookies.remove` update in place. */
  class CookieJar {
    var entries: Jar

    constructor (initial: Jar)
      ensures entries == initial
    {
      entries := initial;
    }

    /** `Cookies.set(name, value)`. */
    method Set(name: string, value: string)
      modifies this
      ensures entries == old(entries)[name := value]
    {
      entries := entries[name := value];
    }

    /** `Cookies.remove(name)`. */
    method Remove(name: string)
      modifies this
      ensures entries == old(entries) - {name}
    {
      entries := entries - {name};
    }
  }
}
