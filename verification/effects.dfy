/**
 * Side effects of the login handlers, as an ordered trace, and an interpreter
 * that replays a trace on the page state (cookies, session store, route,
 * alerts) so that "what the user ends up with" can be stated of a handler.
 */
module Effects {
  import opened Wrappers
  import Cookies
  import UserSlice

  datatype Effect =
    | SetCookie(name: string, value: string, options: Cookies.CookieOptions)
    | HydrateStore(token: string)             // useUserStore's setUserFromToken(token)
    | StripQuery                              // window.history.replaceState(..., pathname)
    | Navigate(path: string, replace: bool)   // navigate(path, { replace })
    | Alert(message: string)

  datatype Page = Page(
    cookies: map<string, Cookies.Cookie>,
    session: UserSlice.Session,
    path: string,
    queryStripped: bool,
    alerts: seq<string>)

  /** The page after one effect; each effect touches exactly one part of the page. */
  function Perform(p: Page, e: Effect, decode: UserSlice.Decoder): (q: Page)
    ensures e.SetCookie? ==> q == p.(cookies := p.cookies[e.name := Cookies.Cookie(e.value, e.options)])
    ensures e.HydrateStore? ==> q == p.(session := UserSlice.Hydrated(decode(e.token)))
    ensures e.Navigate? ==> q == p.(path := e.path)
    ensures e.StripQuery? ==> q == p.(queryStripped := true)
    ensures e.Alert? ==> q == p.(alerts := p.alerts + [e.message])
  {
    match e
    case SetCookie(name, value, options) => p.(cookies := p.cookies[name := Cookies.Cookie(value, options)])
    case HydrateStore(token) =>
      p.(session := UserSlice.Step(p.session, UserSlice.Action.SetUserFromToken(decode(token))))
    case StripQuery => p.(queryStripped := true)
    case Navigate(path, _) => p.(path := path)
    case Alert(message) => p.(alerts := p.alerts + [message])
  }

  /** The page after a trace, first effect first. */
  function Apply(p: Page, effects: seq<Effect>, decode: UserSlice.Decoder): Page
    decreases |effects|
  {
    if effects == [] then p else Apply(Perform(p, effects[0], decode), effects[1..], decode)
  }

  lemma {:induction false} ApplyAppend(p: Page, a: seq<Effect>, b: seq<Effect>, decode: UserSlice.Decoder)
    ensures Apply(p, a + b, decode) == Apply(Apply(p, a, decode), b, decode)
    decreases |a|
  {
    if a != [] {
      assert (a + b)[1..] == a[1..] + b;
      ApplyAppend(Perform(p, a[0], decode), a[1..], b, decode);
    } else {
      assert a + b == b;
    }
  }

  /** A trace without store hydration leaves the session as it was. */
  lemma {:induction false} ApplyKeepsSession(p: Page, effects: seq<Effect>, decode: UserSlice.Decoder)
    requires forall i :: 0 <= i < |effects| ==> !effects[i].HydrateStore?
    ensures Apply(p, effects, decode).session == p.session
    decreases |effects|
  {
    if effects != [] {
      ApplyKeepsSession(Perform(p, effects[0], decode), effects[1..], decode);
    }
  }
}
