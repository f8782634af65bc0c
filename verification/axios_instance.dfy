/**
 * The shared HTTP client's two interceptors: the request interceptor copies the
 * cookie token into the `Authorization` header; the response interceptor
 * refreshes the token once on a 401 and replays the request.
 */
module HttpClient {
  import opened Wrappers
  import Cookies

  const AuthorizationHeader := "Authorization"
  const BearerPrefix := "Bearer "
  const Unauthorized := 401
  const LoginPath := "/login"

  /** The request as axios carries it between interceptors; `retry` is `_retry`. */
  class RequestConfig {
    var headers: map<string, string>
    var retry: bool

    constructor(headers: map<string, string>)
      ensures this.headers == headers && !retry
    {
      this.headers := headers;
      retry := false;
    }
  }

  /** `Bearer <token>`, the header value for a token. */
  function Bearer(token: string): (h: string)
    ensures |h| == |BearerPrefix| + |token| && h[..|BearerPrefix|] == BearerPrefix && h[|BearerPrefix|..] == token
  {
    BearerPrefix + token
  }

  /**
   * The request interceptor: a truthy cookie token becomes the header; a missing
   * or empty one leaves the headers as they came.
   */
  method OnRequest(config: RequestConfig, jar: Cookies.CookieJar)
    modifies config
    ensures var token := jar.Get(Cookies.AccessToken);
      if token.Some? && token.value != "" then config.headers == old(config.headers)[AuthorizationHeader := Bearer(token.value)]
      else config.headers == old(config.headers)
    ensures config.retry == old(config.retry)
  {
    var token := jar.Get(Cookies.AccessToken);
    if token.Some? && token.value != "" {
      config.headers := config.headers[AuthorizationHeader := Bearer(token.value)];
    }
  }

  /** What the response interceptor does with a failed response. */
  datatype Outcome =
    | Reissue(token: string)             // replay the request with the new token
    | Reject(redirectToLogin: bool)      // reject with the original error, after `/login` when the refresh failed

  /**
   * The decision, given the failure's status (absent for a network error), the
   * request's `_retry` flag and the refresh call's result (`None` when it throws).
   */
  function Decide(status: Option<int>, retry: bool, refresh: Option<string>): (r: Outcome)
    ensures r.Reissue? <==> status == Some(Unauthorized) && !retry && refresh.Some?
    ensures r.Reissue? ==> r.token == refresh.value
    ensures r == Reject(true) <==> status == Some(Unauthorized) && !retry && refresh.None?
    ensures retry ==> r == Reject(false)
  {
    if status == Some(Unauthorized) && !retry then
      if refresh.Some? then Reissue(refresh.value) else Reject(true)
    else Reject(false)
  }

  /**
   * The response interceptor's error handler. The refresh call itself is the
   * parameter `refresh`; it is consulted only on a first 401.
   */
  method OnResponseError(status: Option<int>, config: RequestConfig, jar: Cookies.CookieJar, refresh: Option<string>)
    returns (r: Outcome)
    modifies config, jar
    ensures r == Decide(status, old(config.retry), refresh)
    ensures config.retry == (old(config.retry) || status == Some(Unauthorized))
    ensures r.Reissue? ==> config.headers == old(config.headers)[AuthorizationHeader := Bearer(r.token)]
    ensures r.Reissue? ==> jar.entries == old(jar.entries)[Cookies.AccessToken := Cookies.Cookie(r.token, Cookies.NoOptions)]
    ensures !r.Reissue? ==> config.headers == old(config.headers) && jar.entries == old(jar.entries)
  {
    if status == Some(Unauthorized) && !config.retry {
      config.retry := true;
      if refresh.Some? {
        jar.Set(Cookies.AccessToken, refresh.value, Cookies.NoOptions);
        config.headers := config.headers[AuthorizationHeader := Bearer(refresh.value)];
        return Reissue(refresh.value);
      }
      return Reject(true);
    }
    return Reject(false);
  }

  /** One failed response of a request and what the refresh call would return at that point. */
  datatype Attempt = Attempt(status: Option<int>, refresh: Option<string>)

  /** The `_retry` flag after the interceptor has seen a response. */
  function RetryAfter(retry: bool, status: Option<int>): (flag: bool)
    ensures retry ==> flag
    ensures status == Some(Unauthorized) ==> flag
    ensures flag ==> retry || status == Some(Unauthorized)
  {
    retry || status == Some(Unauthorized)
  }

  /** How many refresh-and-replay rounds a request goes through over a series of failures. */
  function Reissues(retry: bool, attempts: seq<Attempt>): nat
    decreases |attempts|
  {
    if attempts == [] then 0
    else
      var a := attempts[0];
      (if Decide(a.status, retry, a.refresh).Reissue? then 1 else 0)
        + Reissues(RetryAfter(retry, a.status), attempts[1..])
  }

  /** A request is refreshed at most once, and never once `_retry` is already set. */
  lemma {:induction false} ReissuedAtMostOnce(retry: bool, attempts: seq<Attempt>)
    ensures Reissues(retry, attempts) <= (if retry then 0 else 1)
    decreases |attempts|
  {
    if attempts != [] {
      var a := attempts[0];
      ReissuedAtMostOnce(RetryAfter(retry, a.status), attempts[1..]);
    }
  }
}
