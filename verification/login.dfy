/**
 * The password login page: the role a token grants, the route after login,
 * the effects of a submit, the error message and the form update.
 */
module Login {
  import opened Wrappers
  import Cookies
  import opened UserSlice
  import opened Effects

  const AdminRole := "ADMIN"
  const AdminPath := "/admin"
  const HomePath := "/"
  const LoginSucceeded := "로그인 성공!"
  const DefaultLoginError := "이메일 또는 비밀번호가 올바르지 않습니다."

  /** JavaScript truthiness of an optional role claim: `""` is falsy, every list (even `[]`) truthy. */
  predicate Truthy(c: Option<RoleClaim>) {
    match c
    case None => false
    case Some(Single(name)) => name != ""
    case Some(Many(_)) => true
  }

  /** `Array.isArray(x) ? x[0] : x` on an optional claim; `[][0]` is `undefined`. */
  function Head(c: Option<RoleClaim>): (r: Option<string>)
    ensures c.Some? && c.value.Single? ==> r == Some(c.value.name)
    ensures c.Some? && c.value.Many? ==> (r.Some? <==> |c.value.names| > 0)
    ensures c.Some? && c.value.Many? && r.Some? ==> r.value == c.value.names[0]
    ensures c.None? ==> r.None?
  {
    match c
    case None => None
    case Some(Single(name)) => Some(name)
    case Some(Many(names)) => if |names| > 0 then Some(names[0]) else None
  }

  /**
   * `decoded.roles || decoded.role`, then the head of a list: the plural claim
   * wins whenever it is truthy, the singular one is only a fallback.
   */
  function ResolveRole(c: Claims): (r: Option<string>)
    ensures Truthy(c.roles) ==> r == Head(c.roles)
    ensures !Truthy(c.roles) ==> r == Head(c.role)
  {
    Head(if Truthy(c.roles) then c.roles else c.role)
  }

  /** Where a login lands: `/admin` exactly for a token whose resolved role is `ADMIN`. */
  function PostLoginRoute(decoded: Option<Claims>): (path: string)
    ensures path == AdminPath || path == HomePath
    ensures path == AdminPath <==> decoded.Some? && ResolveRole(decoded.value) == Some(AdminRole)
  {
    match decoded
    case Some(c) => if ResolveRole(c) == Some(AdminRole) then AdminPath else HomePath
    case None => HomePath
  }

  /** A plural `["ADMIN", ...]` claim outranks a singular `"USER"` claim. */
  lemma PluralClaimWins(names: seq<string>)
    requires |names| > 0 && names[0] == AdminRole
    ensures PostLoginRoute(Some(Claims(None, None, Some(Single("USER")), Some(Many(names))))) == AdminPath
  {
  }

  /** The server's answer to the login request. */
  datatype LoginReply =
    | Issued(accessToken: string)              // response.data.data.accessToken ("" when missing)
    | Rejected(serverMessage: Option<string>)  // error.response?.data?.message

  /** The alert shown for a failed login: the server's message if it has one, else the fixed text. */
  function LoginErrorMessage(serverMessage: Option<string>): (m: string)
    ensures serverMessage.Some? && serverMessage.value != "" ==> m == serverMessage.value
    ensures serverMessage.None? || serverMessage.value == "" ==> m == DefaultLoginError
  {
    match serverMessage
    case Some(text) => if text != "" then text else DefaultLoginError
    case None => DefaultLoginError
  }

  /**
   * `handleSubmit` after the request: the cookie is written first, whatever the
   * token; the store is hydrated and the user routed only when the token is truthy.
   */
  function SubmitEffects(reply: LoginReply, decode: Decoder): (effects: seq<Effect>)
    ensures reply.Rejected? ==> effects == [Alert(LoginErrorMessage(reply.serverMessage))]
    ensures reply.Issued? ==>
      |effects| >= 1 && effects[0] == SetCookie(Cookies.AccessToken, reply.accessToken, Cookies.SiteWideForOneDay)
    ensures reply.Issued? && reply.accessToken == "" ==> |effects| == 1
    ensures reply.Issued? && reply.accessToken != "" ==>
      && |effects| == 4
      && effects[1] == HydrateStore(reply.accessToken)
      && effects[2] == Alert(LoginSucceeded)
      && effects[3] == Navigate(PostLoginRoute(decode(reply.accessToken)), false)
  {
    match reply
    case Rejected(message) => [Alert(LoginErrorMessage(message))]
    case Issued(token) =>
      [SetCookie(Cookies.AccessToken, token, Cookies.SiteWideForOneDay)]
      + if token == "" then []
        else [HydrateStore(token), Alert(LoginSucceeded), Navigate(PostLoginRoute(decode(token)), false)]
  }

  /**
   * After a login with a truthy token the cookie holds the token, the store
   * holds the token's identity (authenticated exactly when it decodes), and
   * the page is on the role's route.
   */
  lemma SubmitOutcome(p: Page, token: string, decode: Decoder)
    requires token != ""
    ensures var q := Apply(p, SubmitEffects(Issued(token), decode), decode);
      && Cookies.AccessToken in q.cookies
      && q.cookies[Cookies.AccessToken] == Cookies.Cookie(token, Cookies.SiteWideForOneDay)
      && q.session == Hydrated(decode(token))
      && (q.session.isAuthenticated == Some(true) <==> decode(token).Some?)
      && q.path == PostLoginRoute(decode(token))
  {
    var effects := SubmitEffects(Issued(token), decode);
    var p1 := Perform(p, effects[0], decode);
    var p2 := Perform(p1, effects[1], decode);
    var p3 := Perform(p2, effects[2], decode);
    var p4 := Perform(p3, effects[3], decode);
    assert Apply(p, effects, decode) == Apply(p1, effects[1..], decode);
    assert effects[1..][1..] == effects[2..];
    assert Apply(p1, effects[1..], decode) == Apply(p2, effects[2..], decode);
    assert effects[2..][1..] == effects[3..];
    assert Apply(p2, effects[2..], decode) == Apply(p3, effects[3..], decode);
    assert effects[3..][1..] == [];
    assert Apply(p3, effects[3..], decode) == p4;
  }

  /** A rejected login changes no cookie and no identity. */
  lemma RejectedKeepsSession(p: Page, message: Option<string>, decode: Decoder)
    ensures Apply(p, SubmitEffects(Rejected(message), decode), decode).session == p.session
    ensures Apply(p, SubmitEffects(Rejected(message), decode), decode).cookies == p.cookies
  {
    var effects := SubmitEffects(Rejected(message), decode);
    assert effects[1..] == [];
  }

  /** A form field holds text, or a checkbox's state. */
  datatype FieldValue = Text(text: string) | Checked(on: bool)

  const InitialForm: map<string, FieldValue> :=
    map["email" := Text(""), "password" := Text(""), "rememberMe" := Checked(false)]

  /** `handleInputChange`: the named field takes `checked` for a checkbox and `value` otherwise. */
  function InputChanged(form: map<string, FieldValue>, name: string, inputType: string, value: string, checked: bool)
    : (r: map<string, FieldValue>)
    ensures r.Keys == form.Keys + {name}
    ensures r[name] == (if inputType == "checkbox" then Checked(checked) else Text(value))
    ensures forall k :: k in form && k != name ==> r[k] == form[k]
  {
    form[name := if inputType == "checkbox" then Checked(checked) else Text(value)]
  }
}
