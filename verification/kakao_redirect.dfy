/**
 * The Kakao login redirect page. It acts only when the query mentions
 * `accessToken`, and routes by the singular `role` claim alone.
 */
module KakaoRedirect {
  import opened Wrappers
  import Strings
  import Cookies
  import opened UserSlice
  import opened Effects
  import Login

  /** `decoded.role === 'ADMIN'`: a list-valued or plural claim never matches. */
  function KakaoRoute(decoded: Option<Claims>): (path: string)
    ensures path == Login.AdminPath || path == Login.HomePath
    ensures path == Login.AdminPath <==> decoded.Some? && decoded.value.role == Some(Single(Login.AdminRole))
  {
    if decoded.Some? && decoded.value.role == Some(Single(Login.AdminRole)) then Login.AdminPath
    else Login.HomePath
  }

  /** Unlike the password login, a role list `["ADMIN"]` does not reach the admin page here. */
  lemma ListRoleIsNotUnwrapped()
    ensures var c := Some(Claims(None, None, Some(Many([Login.AdminRole])), None));
      Login.PostLoginRoute(c) == Login.AdminPath && KakaoRoute(c) == Login.HomePath
  {
  }

  /** A scalar `role` with no `roles` claim routes the same way on both pages. */
  lemma ScalarRoleAgrees(c: Claims)
    requires c.roles.None? && (c.role.None? || c.role.value.Single?)
    ensures KakaoRoute(Some(c)) == Login.PostLoginRoute(Some(c))
  {
  }

  /**
   * The effect body: nothing unless the raw query mentions `accessToken`; with a
   * truthy token: cookie, store, strip the query, route; otherwise to `/login`.
   */
  function RedirectEffects(search: string, accessToken: Option<string>, decode: Decoder): (effects: seq<Effect>)
    ensures !Strings.Contains(search, Cookies.AccessToken) ==> effects == []
    ensures Strings.Contains(search, Cookies.AccessToken) && accessToken.Some? && accessToken.value != "" ==>
      var t := accessToken.value;
      effects == [SetCookie(Cookies.AccessToken, t, Cookies.SiteWideForOneDay), HydrateStore(t), StripQuery,
                  Navigate(KakaoRoute(decode(t)), false)]
    ensures Strings.Contains(search, Cookies.AccessToken) && (accessToken.None? || accessToken.value == "") ==>
      effects == [Navigate(OauthLoginPath, false)]
  {
    if !Strings.Contains(search, Cookies.AccessToken) then []
    else if accessToken.Some? && accessToken.value != "" then
      [SetCookie(Cookies.AccessToken, accessToken.value, Cookies.SiteWideForOneDay), HydrateStore(accessToken.value),
       StripQuery, Navigate(KakaoRoute(decode(accessToken.value)), false)]
    else [Navigate(OauthLoginPath, false)]
  }

  const OauthLoginPath := "/login"

  /** A page without `accessToken` in its query is left exactly as it was. */
  lemma NoTokenNoChange(p: Page, search: string, accessToken: Option<string>, decode: Decoder)
    requires !Strings.Contains(search, Cookies.AccessToken)
    ensures Apply(p, RedirectEffects(search, accessToken, decode), decode) == p
  {
  }
}
