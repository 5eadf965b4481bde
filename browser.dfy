/**
 * The browser state the session code reads and writes: the two tokens kept in
 * `localStorage`, the `Authorization` header on the shared api instance's defaults,
 * and the current location.
 */
module Browser {
  import opened Common
  import opened Text

  class Env {
    // localStorage 'access_token' / 'refresh_token'; None when the item is absent
    var accessToken: Option<string>
    var refreshToken: Option<string>
    // api.defaults.headers.common['Authorization']; None when deleted or never set
    var defaultAuthorization: Option<string>
    // window.location.pathname
    var pathname: string

    constructor (access: Option<string>, refresh: Option<string>, path: string)
      ensures accessToken == access && refreshToken == refresh
      ensures defaultAuthorization == None && pathname == path
    {
      accessToken := access;
      refreshToken := refresh;
      defaultAuthorization := None;
      pathname := path;
    }
  }

  /** `if (token)` on a `localStorage.getItem` result: absent and `''` are both falsy. */
  predicate Truthy(item: Option<string>) {
    item.Some? && item.value != ""
  }

  /** The header value `Bearer <token>`. */
  function Bearer(token: string): (h: string)
    ensures StartsWith(h, "Bearer ") && h[7..] == token
  {
    "Bearer " + token
  }

  /** Different tokens never give the same header. */
  lemma BearerInjective(s: string, t: string)
    requires Bearer(s) == Bearer(t)
    ensures s == t
  {
    assert s == Bearer(s)[7..];
  }
}
