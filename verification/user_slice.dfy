/**
 * The global session store (`useUserStore`): the identity read from a bearer
 * token and a three-valued `isAuthenticated` (`null` = not checked yet).
 * The token decoder is a parameter: it stands for `jwtDecode`, which returns
 * the claims or throws.
 */
module UserSlice {
  import opened Wrappers
  import Cookies

  /** A role claim arrives either as one string or as a list of strings. */
  datatype RoleClaim = Single(name: string) | Many(names: seq<string>)

  /** The claims the client reads from a decoded token (each may be absent). */
  datatype Claims = Claims(
    sub: Option<string>,
    nickname: Option<string>,
    role: Option<RoleClaim>,
    roles: Option<RoleClaim>)

  /** `jwtDecode`: the claims of a well-formed token, `None` where it throws. */
  type Decoder = string -> Option<Claims>

  /**
   * The store's data fields. `email` is `null` until a token is decoded, and
   * `undefined` when a decoded token carries no `sub`.
   */
  datatype Session = Session(
    email: Nullable<string>,
    nickname: Option<string>,
    memberRoleList: Option<RoleClaim>,
    isAuthenticated: Option<bool>)

  /** The state at start-up: nothing known, authentication not yet checked. */
  const Initial := Session(Null, None, None, None)

  /** Checked and anonymous. */
  const Anonymous := Session(Null, None, None, Some(false))

  /** What `setUserFromToken` writes for a decode outcome. */
  function Hydrated(decoded: Option<Claims>): (s: Session)
    ensures s.isAuthenticated == Some(decoded.Some?)
    ensures decoded.Some? ==>
      && s.email == Read(decoded.value.sub)
      && s.nickname == decoded.value.nickname
      && s.memberRoleList == decoded.value.role
    ensures decoded.None? ==> s == Anonymous
    ensures s.email.Null? <==> decoded.None?
  {
    match decoded
    case Some(c) => Session(Read(c.sub), c.nickname, c.role, Some(true))
    case None => Anonymous
  }

  datatype Action = SetUserFromToken(decoded: Option<Claims>) | Logout

  /** One store action. Neither action reads the previous state. */
  function Step(s: Session, a: Action): (t: Session)
    ensures t.isAuthenticated.Some?
    ensures t.isAuthenticated == Some(true) <==> a.SetUserFromToken? && a.decoded.Some?
    ensures t.isAuthenticated == Some(false) ==> t == Anonymous
    ensures t.isAuthenticated == Some(true) <==> !t.email.Null?
  {
    match a
    case SetUserFromToken(d) => Hydrated(d)
    case Logout => Anonymous
  }

  /** The store after a sequence of actions, oldest first. */
  function Run(s: Session, acts: seq<Action>): Session
    decreases |acts|
  {
    if acts == [] then s else Run(Step(s, acts[0]), acts[1..])
  }

  /** Once any action has run, `isAuthenticated` is never `null` again. */
  lemma {:induction false} RunSettles(s: Session, acts: seq<Action>)
    requires |acts| > 0
    ensures Run(s, acts).isAuthenticated.Some?
    decreases |acts|
  {
    if |acts| > 1 {
      RunSettles(Step(s, acts[0]), acts[1..]);
    }
  }

  /**
   * Only the last action matters: whatever identity the store held before is
   * overwritten, never merged into the new one.
   */
  lemma {:induction false} RunIsLastAction(s: Session, acts: seq<Action>)
    requires |acts| > 0
    ensures Run(s, acts) == Step(Initial, acts[|acts| - 1])
    decreases |acts|
  {
    if |acts| > 1 {
      RunIsLastAction(Step(s, acts[0]), acts[1..]);
    }
  }

  /** Logging out twice leaves the same state as logging out once. */
  lemma LogoutIdempotent(s: Session)
    ensures Run(s, [Logout, Logout]) == Run(s, [Logout])
    ensures Run(s, [Logout]) == Anonymous
  {
  }

  class UserStore {
    var email: Nullable<string>
    var nickname: Option<string>
    var memberRoleList: Option<RoleClaim>
    var isAuthenticated: Option<bool>

    function State(): Session
      reads this
    {
      Session(email, nickname, memberRoleList, isAuthenticated)
    }

    constructor()
      ensures State() == Initial
    {
      email, nickname, memberRoleList, isAuthenticated := Null, None, None, None;
    }

    /** Hydrates the identity from a token; a token that fails to decode resets it (never throws). */
    method SetUserFromToken(token: string, decode: Decoder)
      modifies this
      ensures State() == Step(old(State()), Action.SetUserFromToken(decode(token)))
      ensures State() == Hydrated(decode(token))
    {
      match decode(token)
      case Some(c) =>
        email, nickname, memberRoleList, isAuthenticated := Read(c.sub), c.nickname, c.role, Some(true);
      case None =>
        email, nickname, memberRoleList, isAuthenticated := Null, None, None, Some(false);
    }

    /** Removes the `accessToken` cookie (path `/`) and resets the identity. */
    method Logout(jar: Cookies.CookieJar)
      modifies this, jar
      ensures State() == Step(old(State()), Action.Logout) == Anonymous
      ensures jar.entries == old(jar.entries) - {Cookies.AccessToken}
    {
      jar.Remove(Cookies.AccessToken, Cookies.CookieOptions(Some("/"), None));
      email, nickname, memberRoleList, isAuthenticated := Null, None, None, Some(false);
    }
  }
}
