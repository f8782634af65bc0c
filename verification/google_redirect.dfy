/**
 * The Google login redirect page: like the Kakao page, but every successful
 * token lands on `/`, whatever role it carries.
 */
module GoogleRedirect {
  import opened Wrappers
  import Strings
  import Cookies
  import opened UserSlice
  import opened Effects
  import Login

  const LoginPath := "/login"

  function RedirectEffects(search: string, accessToken: Option<string>): (effects: seq<Effect>)
    ensures !Strings.Contains(search, Cookies.AccessToken) ==> effects == []
    ensures Strings.Contains(search, Cookies.AccessToken) && accessToken.Some? && accessToken.value != "" ==>
      var t := accessToken.value;
      effects == [SetCookie(Cookies.AccessToken, t, Cookies.SiteWideForOneDay), HydrateStore(t), StripQuery,
                  Navigate(Login.HomePath, false)]
    ensures Strings.Contains(search, Cookies.AccessToken) && (accessToken.None? || accessToken.value == "") ==>
      effects == [Navigate(LoginPath, false)]
  {
    if !Strings.Contains(search, Cookies.AccessToken) then []
    else if accessToken.Some? && accessToken.value != "" then
      [SetCookie(Cookies.AccessToken, accessToken.value, Cookies.SiteWideForOneDay), HydrateStore(accessToken.value),
       StripQuery, Navigate(Login.HomePath, false)]
    else [Navigate(LoginPath, false)]
  }

  /** Even an administrator's token lands on `/` after a Google login, and never on `/admin`. */
  lemma AlwaysHome(p: Page, search: string, token: string, decode: Decoder)
    requires Strings.Contains(search, Cookies.AccessToken) && token != ""
    ensures var q := Apply(p, RedirectEffects(search, Some(token)), decode);
      q.path == Login.HomePath && q.session == Hydrated(decode(token)) && q.queryStripped
  {
    var effects := RedirectEffects(search, Some(token));
    var p1 := Perform(p, effects[0], decode);
    var p2 := Perform(p1, effects[1], decode);
    var p3 := Perform(p2, effects[2], decode);
    var p4 := Perform(p3, effects[3], decode);
    assert Apply(p, effects, decode) == Apply(p1, effects[1..], decode);
    assert effects[1..][1..] == effects[2..];
    assert Apply(p1, effects[1..], decode) == Apply(p2, effects[2..], decode);
    assert effects[2..][1..] == effects[3..];
    assert Apply(p2, effects[2..], decode) == Apply(p3, effects[3..], decode);
    assert effects[3..][1..] == [];
    assert Apply(p3, effects[3..], decode) == p4;
  }
}
