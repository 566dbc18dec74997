/**
 * The HTTP client the front end calls the back end with (`api.ts`): its base
 * address, a request hook that attaches the signed-in user's access token as
 * a Bearer credential (section 2.1 of RFC 6750), and a response hook that
 * sends the browser to the login page when the back end answers 401.
 */
module ApiClient {
  import opened Wrappers
  import opened Text
  import opened Identity

  const DefaultBaseUrl := "http://localhost:8080/api/v1"

  /** Line 10: the configured address when it is set and non-empty (`||`), else the local default. */
  function BaseUrl(configured: Option<string>): (r: string)
    ensures configured.Some? && configured.value != [] ==> r == configured.value
    ensures configured.None? || configured.value == [] ==> r == DefaultBaseUrl
    ensures r != []
  {
    if configured.Some? && configured.value != [] then configured.value else DefaultBaseUrl
  }

  /** Lines 11-13: every request starts with a JSON content type. */
  const DefaultHeaders: map<string, string> := map["Content-Type" := "application/json"]

  /** The header name and scheme prefix of the credential. */
  const AuthorizationHeader := "Authorization"
  const BearerPrefix := "Bearer "

  /** Whether the request hook attaches a credential: in a browser, with a non-empty access token. */
  predicate AttachesToken(inBrowser: bool, session: Option<Session>) {
    inBrowser && session.Some? && session.value.accessToken != []
  }

  /** The headers the request hook leaves behind (lines 20-31). */
  function Authorized(headers: map<string, string>, inBrowser: bool, session: Option<Session>): (h: map<string, string>)
    ensures AttachesToken(inBrowser, session) ==>
      AuthorizationHeader in h && StartsWith(h[AuthorizationHeader], BearerPrefix) &&
      h[AuthorizationHeader][|BearerPrefix|..] == session.value.accessToken
    ensures !AttachesToken(inBrowser, session) ==> h == headers
    ensures forall k :: k != AuthorizationHeader ==> (k in h <==> k in headers) && (k in h ==> h[k] == headers[k])
  {
    if AttachesToken(inBrowser, session) then
      var v := BearerPrefix + session.value.accessToken;
      assert v[..|BearerPrefix|] == BearerPrefix;
      headers[AuthorizationHeader := v]
    else headers
  }

  /**
   * Every request the client sends keeps the JSON content type it starts
   * with, and carries at most the credential besides.
   */
  lemma RequestKeepsContentType(inBrowser: bool, session: Option<Session>)
    ensures Authorized(DefaultHeaders, inBrowser, session)["Content-Type"] == "application/json"
    ensures Authorized(DefaultHeaders, inBrowser, session).Keys <= {"Content-Type", AuthorizationHeader}
  {
  }

  /** A credential attached once is simply overwritten by the next session's token, never doubled. */
  lemma AuthorizeTwice(headers: map<string, string>, first: Session, second: Session)
    requires first.accessToken != [] && second.accessToken != []
    ensures Authorized(Authorized(headers, true, Some(first)), true, Some(second)) == Authorized(headers, true, Some(second))
  {
  }

  /** The request configuration the hook receives and mutates. */
  class RequestConfig {
    var headers: map<string, string>

    constructor (headers: map<string, string>)
      ensures this.headers == headers
    {
      this.headers := headers;
    }
  }

  /** The browser window; a server-side render has none. */
  class BrowserWindow {
    var href: string

    constructor (href: string)
      ensures this.href == href
    {
      this.href := href;
    }
  }

  /** An error as the client sees it: the HTTP status of the response, when there was one. */
  datatype HttpError = HttpError(status: Option<int>)

  /** The outcome of a hook: the value passed on, or the error re-raised. */
  datatype Settled<T> = Resolved(value: T) | Rejected(error: HttpError)

  /**
   * Lines 18-32. `session` is what the provider's `getSession()` reports; it
   * is only asked for in a browser. The same configuration object is passed on.
   */
  method OnRequest(config: RequestConfig, window: BrowserWindow?, session: Option<Session>) returns (r: Settled<RequestConfig>)
    modifies config
    ensures r == Resolved(config)
    ensures config.headers == Authorized(old(config.headers), window != null, session)
  {
    if window == null {
      return Resolved(config);
    }
    if session.Some? && session.value.accessToken != [] {
      config.headers := config.headers[AuthorizationHeader := BearerPrefix + session.value.accessToken];
    }
    return Resolved(config);
  }

  /** Lines 33-35: a failure before the request is sent is passed on unchanged. */
  method OnRequestError(error: HttpError) returns (r: Settled<RequestConfig>)
    ensures r == Rejected(error)
  {
    return Rejected(error);
  }

  /** Line 40: a successful response is passed on unchanged. */
  method OnResponse<T>(response: T) returns (r: Settled<T>)
    ensures r == Resolved(response)
  {
    return Resolved(response);
  }

  /** Whether a failed response sends the browser to the login page. */
  predicate RedirectsToLogin(error: HttpError, inBrowser: bool) {
    error.status == Some(401) && inBrowser
  }

  /**
   * Lines 41-46: a 401 in a browser sends it to `/login`; any other failure
   * leaves the page alone. The error is re-raised in both cases.
   */
  method OnResponseError<T>(error: HttpError, window: BrowserWindow?) returns (r: Settled<T>)
    modifies window
    ensures r == Rejected(error)
    ensures window != null && RedirectsToLogin(error, true) ==> window.href == "/login"
    ensures window != null && !RedirectsToLogin(error, true) ==> window.href == old(window.href)
  {
    if error.status == Some(401) && window != null {
      window.href := "/login";
    }
    return Rejected(error);
  }
}
