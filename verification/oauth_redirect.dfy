/**
 * The social-login redirect page: reads `accessToken`, `error` and `message`
 * from the query and decides between reporting the error, signing in and
 * rejecting the visit. A ref (`effectRan`) keeps the effect from acting twice.
 */
module OauthRedirect {
  import opened Wrappers
  import Cookies
  import opened UserSlice
  import opened Effects
  import Login

  const LoginPath := "/login"
  const BadAccess := "잘못된 접근입니다."

  /** JavaScript truthiness of an optional query parameter. */
  predicate Present(param: Option<string>) {
    param.Some? && param.value != ""
  }

  datatype Branch = ReportError(message: string) | SignIn(token: string) | RejectVisit

  /** The three-way decision: an error with a message wins over a token; neither means a bad visit. */
  function Decide(accessToken: Option<string>, error: Option<string>, message: Option<string>): (b: Branch)
    ensures Present(error) && Present(message) ==> b == ReportError(message.value)
    ensures !(Present(error) && Present(message)) && Present(accessToken) ==> b == SignIn(accessToken.value)
    ensures b.RejectVisit? <==> !(Present(error) && Present(message)) && !Present(accessToken)
  {
    if Present(error) && Present(message) then ReportError(message.value)
    else if Present(accessToken) then SignIn(accessToken.value)
    else RejectVisit
  }

  /** The effect body, in program order; every navigation replaces the history entry. */
  function RedirectEffects(accessToken: Option<string>, error: Option<string>, message: Option<string>, decode: Decoder)
    : (effects: seq<Effect>)
    ensures |effects| >= 2 && effects[|effects| - 1].Navigate? && effects[|effects| - 1].replace
    ensures Decide(accessToken, error, message).SignIn? ==>
      var t := accessToken.value;
      effects == [SetCookie(Cookies.AccessToken, t, Cookies.SiteWideForOneDay), HydrateStore(t),
                  Navigate(Login.PostLoginRoute(decode(t)), true)]
    ensures !Decide(accessToken, error, message).SignIn? ==>
      |effects| == 2 && effects[0].Alert? && effects[1] == Navigate(LoginPath, true)
  {
    match Decide(accessToken, error, message)
    case ReportError(text) => [Alert(text), Navigate(LoginPath, true)]
    case SignIn(t) =>
      [SetCookie(Cookies.AccessToken, t, Cookies.SiteWideForOneDay), HydrateStore(t),
       Navigate(Login.PostLoginRoute(decode(t)), true)]
    case RejectVisit => [Alert(BadAccess), Navigate(LoginPath, true)]
  }

  /** An error report never touches the cookie or the store, even when a token is present. */
  lemma ErrorIgnoresToken(p: Page, accessToken: Option<string>, error: Option<string>, message: Option<string>, decode: Decoder)
    requires Present(error) && Present(message)
    ensures var q := Apply(p, RedirectEffects(accessToken, error, message, decode), decode);
      q.session == p.session && q.cookies == p.cookies && q.path == LoginPath
  {
    var effects := RedirectEffects(accessToken, error, message, decode);
    var p1 := Perform(p, effects[0], decode);
    var p2 := Perform(p1, effects[1], decode);
    assert Apply(p, effects, decode) == Apply(p1, effects[1..], decode);
    assert effects[1..][1..] == [];
    assert Apply(p1, effects[1..], decode) == p2;
  }

  /** Signing in leaves the token's identity in the store and lands on the role's route. */
  lemma SignInOutcome(p: Page, token: string, decode: Decoder)
    requires token != ""
    ensures var q := Apply(p, RedirectEffects(Some(token), None, None, decode), decode);
      q.session == Hydrated(decode(token)) && q.path == Login.PostLoginRoute(decode(token))
  {
    var effects := RedirectEffects(Some(token), None, None, decode);
    var p1 := Perform(p, effects[0], decode);
    var p2 := Perform(p1, effects[1], decode);
    var p3 := Perform(p2, effects[2], decode);
    assert Apply(p, effects, decode) == Apply(p1, effects[1..], decode);
    assert effects[1..][1..] == effects[2..];
    assert Apply(p1, effects[1..], decode) == Apply(p2, effects[2..], decode);
    assert effects[2..][1..] == [];
    assert Apply(p2, effects[2..], decode) == p3;
  }

  /** The component instance: only the `effectRan` ref survives between effect runs. */
  class OauthRedirectHandler {
    var effectRan: bool

    constructor()
      ensures !effectRan
    {
      effectRan := false;
    }

    /** One run of the effect: nothing once the ref is set, the full redirect otherwise. */
    method RunEffect(accessToken: Option<string>, error: Option<string>, message: Option<string>, decode: Decoder)
      returns (effects: seq<Effect>)
      ensures effectRan ==> effects == []
      ensures !effectRan ==> effects == RedirectEffects(accessToken, error, message, decode)
    {
      if effectRan {
        return [];
      }
      effects := RedirectEffects(accessToken, error, message, decode);
    }

    /** The cleanup the effect returns: marks the effect as done. */
    method Cleanup()
      modifies this
      ensures effectRan
    {
      effectRan := true;
    }
  }

  /**
   * A development-mode double mount: effect, cleanup, effect. The redirect
   * happens once; the second run does nothing.
   */
  method MountTwice(accessToken: Option<string>, error: Option<string>, message: Option<string>, decode: Decoder)
    returns (first: seq<Effect>, second: seq<Effect>)
    ensures first == RedirectEffects(accessToken, error, message, decode)
    ensures second == []
  {
    var handler := new OauthRedirectHandler();
    first := handler.RunEffect(accessToken, error, message, decode);
    handler.Cleanup();
    second := handler.RunEffect(accessToken, error, message, decode);
  }
}
