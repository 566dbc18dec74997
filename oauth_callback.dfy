/**
 * The OAuth callback route of the front end (`auth/callback/route.ts`): the
 * provider sends the browser back with a one-time `code`; the route trades it
 * for a session and redirects to `next`, or to the login page with an error.
 */
module OAuthCallback {
  import opened Wrappers
  import opened Text

  const FailurePath := "/login?error=auth_callback_failed"

  /** Line 14: `searchParams.get("next") ?? "/"` — only a missing `next` falls back; an empty one stays. */
  function NextPath(next: Option<string>): string {
    next.GetOr("/")
  }

  /** Whether the route asked the provider to exchange the code, and where it sends the browser. */
  datatype Outcome = Outcome(exchangeAttempted: bool, location: string)

  /**
   * Lines 10-27. `exchangeOk` is what the provider answers for this code
   * (no error); it matters only when the exchange is attempted. `if (code)`
   * is JavaScript truthiness, so an empty code counts as no code.
   */
  function Callback(origin: string, code: Option<string>, next: Option<string>, exchangeOk: bool): (o: Outcome)
    ensures o.exchangeAttempted <==> code.Some? && code.value != ""
    ensures o.exchangeAttempted && exchangeOk ==> o.location == origin + NextPath(next)
    ensures !(o.exchangeAttempted && exchangeOk) ==> o.location == origin + FailurePath
  {
    if code.Some? && code.value != "" then
      if exchangeOk then Outcome(true, origin + NextPath(next))
      else Outcome(true, origin + FailurePath)
    else Outcome(false, origin + FailurePath)
  }

  /** The browser always lands on a URL whose text begins with the request's origin. */
  lemma CallbackKeepsOriginText(origin: string, code: Option<string>, next: Option<string>, exchangeOk: bool)
    ensures StartsWith(Callback(origin, code, next, exchangeOk).location, origin)
  {
    var o := Callback(origin, code, next, exchangeOk);
    assert o.location[..|origin|] == origin;
  }

  /** An empty `next` is kept, so a successful sign-in lands on the bare origin. */
  lemma EmptyNextLandsOnOrigin(origin: string, code: string)
    requires code != ""
    ensures Callback(origin, Some(code), Some(""), true).location == origin
  {
    assert origin + "" == origin;
  }

  // ---------------------------------------------------------------------------
  // Which host the browser goes to. A URL is read as `scheme://authority...`;
  // the authority ends at the first `/`, `?`, `#` or `\`, and the host is what
  // follows the last `@` of the authority (what precedes it is user info).

  /** The text after the first `://`, or nothing. */
  function AfterSchemeSeparator(u: string): string {
    if u == [] then []
    else if StartsWith(u, "://") then u[3..]
    else AfterSchemeSeparator(u[1..])
  }

  predicate EndsAuthority(c: char) {
    c == '/' || c == '?' || c == '#' || c == '\\'
  }

  function Authority(rest: string): string {
    if rest == [] || EndsAuthority(rest[0]) then [] else [rest[0]] + Authority(rest[1..])
  }

  function Host(u: string): string {
    AfterLast(Authority(AfterSchemeSeparator(u)), '@')
  }

  /** An origin as the URL API renders it: a scheme, `://`, and a host (with an optional port). */
  predicate WellFormedOrigin(scheme: string, host: string) {
    ':' !in scheme && host != [] && '@' !in host && forall i :: 0 <= i < |host| ==> !EndsAuthority(host[i])
  }

  lemma {:induction false} SkipScheme(scheme: string, rest: string)
    requires ':' !in scheme
    ensures AfterSchemeSeparator(scheme + "://" + rest) == rest
  {
    var u := scheme + "://" + rest;
    if scheme == [] {
      assert StartsWith(u, "://");
      assert u[3..] == rest;
    } else {
      assert !StartsWith(u, "://") by { assert u[0] == scheme[0] != ':'; }
      assert u[1..] == scheme[1..] + "://" + rest;
      SkipScheme(scheme[1..], rest);
    }
  }

  lemma {:induction false} AuthorityStopsAtPath(host: string, path: string)
    requires forall i :: 0 <= i < |host| ==> !EndsAuthority(host[i])
    requires path == [] || EndsAuthority(path[0])
    ensures Authority(host + path) == host
  {
    if host == [] {
      assert host + path == path;
    } else {
      assert (host + path)[1..] == host[1..] + path;
      AuthorityStopsAtPath(host[1..], path);
    }
  }

  /** A path that begins with `/`, appended to a well-formed origin, keeps the origin's host. */
  lemma PathKeepsHost(scheme: string, host: string, path: string)
    requires WellFormedOrigin(scheme, host)
    requires path == [] || path[0] == '/'
    ensures Host(scheme + "://" + host + path) == host
  {
    assert scheme + "://" + host + path == scheme + "://" + (host + path);
    SkipScheme(scheme, host + path);
    AuthorityStopsAtPath(host, path);
    AfterLastAbsent(host, '@');
  }

  /** Text of the form `user@host` right after the scheme makes `host` the host. */
  lemma UserInfoMovesHost(scheme: string, user: string, host: string)
    requires ':' !in scheme
    requires forall i :: 0 <= i < |user| ==> !EndsAuthority(user[i])
    requires WellFormedOrigin(scheme, host)
    ensures Host(scheme + "://" + (user + "@" + host)) == host
  {
    SkipScheme(scheme, user + "@" + host);
    var a := user + "@" + host;
    assert forall i :: 0 <= i < |a| ==> !EndsAuthority(a[i]) by {
      forall i | 0 <= i < |a| ensures !EndsAuthority(a[i]) {
        if i < |user| { assert a[i] == user[i]; }
        else if i > |user| { assert a[i] == host[i - |user| - 1]; }
      }
    }
    AuthorityStopsAtPath(a, []);
    assert a + [] == a;
    AfterLastSeparator(user, host, '@');
  }

  /**
   * As written, `next` is appended to the origin unchecked: a `next` of the
   * form `@host` turns the origin into user info, and a successful sign-in
   * sends the browser to that other host, whatever the origin is.
   */
  lemma OpenRedirectAsWritten(scheme: string, host: string, evil: string, code: string)
    requires WellFormedOrigin(scheme, host) && WellFormedOrigin(scheme, evil)
    requires code != ""
    ensures Host(Callback(scheme + "://" + host, Some(code), Some("@" + evil), true).location) == evil
  {
    var loc := Callback(scheme + "://" + host, Some(code), Some("@" + evil), true).location;
    assert loc == scheme + "://" + (host + "@" + evil);
    UserInfoMovesHost(scheme, host, evil);
  }

  /** The evidently intended target: `next` only when it is a path on this site, else `/`. */
  function SafeNextPath(next: Option<string>): (p: string)
    ensures p == [] || p[0] == '/'
    ensures next.Some? && StartsWith(next.value, "/") ==> p == next.value
  {
    match next
    case Some(n) => if StartsWith(n, "/") then n else "/"
    case None => "/"
  }

  /** The callback with `next` checked; everything else as in `Callback`. */
  function SafeCallback(origin: string, code: Option<string>, next: Option<string>, exchangeOk: bool): (o: Outcome)
    ensures o.exchangeAttempted <==> code.Some? && code.value != ""
    ensures o.exchangeAttempted && exchangeOk ==> o.location == origin + SafeNextPath(next)
    ensures !(o.exchangeAttempted && exchangeOk) ==> o.location == origin + FailurePath
  {
    if code.Some? && code.value != "" then
      Outcome(true, origin + (if exchangeOk then SafeNextPath(next) else FailurePath))
    else Outcome(false, origin + FailurePath)
  }

  /** With the check, the browser never leaves the origin's host, whatever `next` says. */
  lemma SafeCallbackStaysOnHost(scheme: string, host: string, code: Option<string>, next: Option<string>, exchangeOk: bool)
    requires WellFormedOrigin(scheme, host)
    ensures Host(SafeCallback(scheme + "://" + host, code, next, exchangeOk).location) == host
  {
    var o := SafeCallback(scheme + "://" + host, code, next, exchangeOk);
    if o.exchangeAttempted && exchangeOk {
      PathKeepsHost(scheme, host, SafeNextPath(next));
    } else {
      PathKeepsHost(scheme, host, FailurePath);
    }
  }
}
