/**
 * The edge route guard of the front end (`middleware.ts`): it lets the
 * authentication provider refresh the session cookies, then decides, from
 * whether a user was resolved and from the request path, between a redirect
 * to the login page, a redirect to the home page and passing the request on.
 */
module RouteGuard {
  import opened Wrappers
  import opened Text

  /** Paths that need a signed-in user; matched as plain prefixes. */
  const ProtectedRoutes: seq<string> := ["/mypage", "/chat"]

  /** The pages only meant for visitors who are not signed in; matched exactly. */
  const AuthPages: seq<string> := ["/login", "/signup"]

  /** `PROTECTED_ROUTES.some((route) => pathname.startsWith(route))`. */
  predicate IsProtected(pathname: string)
    ensures IsProtected(pathname) <==> StartsWith(pathname, "/mypage") || StartsWith(pathname, "/chat")
    ensures IsProtected(pathname) ==> pathname != "/"
  {
    assert StartsWith(pathname, "/mypage") ==> StartsWith(pathname, ProtectedRoutes[0]);
    assert StartsWith(pathname, "/chat") ==> StartsWith(pathname, ProtectedRoutes[1]);
    exists i :: 0 <= i < |ProtectedRoutes| && StartsWith(pathname, ProtectedRoutes[i])
  }

  /** `pathname === "/login" || pathname === "/signup"`. */
  predicate IsAuthPage(pathname: string)
    ensures IsAuthPage(pathname) <==> pathname == "/login" || pathname == "/signup"
    ensures IsAuthPage(pathname) ==> !IsProtected(pathname)
  {
    assert "/login"[..5][1] != "/chat"[1] && "/signup"[..5][1] != "/chat"[1];
    pathname in AuthPages
  }

  // ---------------------------------------------------------------------------
  // URLs and their query parameters (the parts of `request.nextUrl` the guard uses).

  type Params = seq<(string, string)>

  datatype Url = Url(origin: string, pathname: string, search: Params)

  /** `searchParams.get(name)`: the value of the first pair with that name. */
  function GetParam(q: Params, name: string): Option<string> {
    if q == [] then None
    else if q[0].0 == name then Some(q[0].1)
    else GetParam(q[1..], name)
  }

  function Names(q: Params): set<string> {
    set i | 0 <= i < |q| :: q[i].0
  }

  /** The names of a non-empty list are its first name and the names of the rest. */
  lemma NamesSplit(q: Params)
    requires q != []
    ensures Names(q) == {q[0].0} + Names(q[1..])
  {
    forall n ensures n in Names(q) <==> n == q[0].0 || n in Names(q[1..]) {
      if n in Names(q) {
        var i :| 0 <= i < |q| && q[i].0 == n;
        if i > 0 {
          assert q[1..][i - 1].0 == n;
        }
      }
      if n in Names(q[1..]) {
        var i :| 0 <= i < |q[1..]| && q[1..][i].0 == n;
        assert q[i + 1].0 == n;
      }
    }
  }

  /** The names after putting `p` in front of `rest`. */
  lemma NamesCons(p: (string, string), rest: Params)
    ensures Names([p] + rest) == {p.0} + Names(rest)
  {
    NamesSplit([p] + rest);
    assert ([p] + rest)[1..] == rest;
  }

  function RemoveParam(q: Params, name: string): (r: Params)
    ensures Names(r) == Names(q) - {name}
    ensures forall n :: n != name ==> GetParam(r, n) == GetParam(q, n)
  {
    if q == [] then []
    else
      NamesSplit(q);
      if q[0].0 == name then RemoveParam(q[1..], name)
      else
        NamesCons(q[0], RemoveParam(q[1..], name));
        [q[0]] + RemoveParam(q[1..], name)
  }

  /**
   * `searchParams.set(name, value)`: the first pair with that name takes the
   * value and later pairs with that name are dropped; without one the pair
   * is appended.
   */
  function SetParam(q: Params, name: string, value: string): (r: Params)
    ensures Names(r) == Names(q) + {name}
    ensures forall i :: 0 <= i < |r| && r[i].0 == name ==> r[i].1 == value
  {
    if q == [] then NamesCons((name, value), []); [(name, value)]
    else
      NamesSplit(q);
      if q[0].0 == name then
        NamesCons((name, value), RemoveParam(q[1..], name));
        NotNamed(RemoveParam(q[1..], name), name);
        [(name, value)] + RemoveParam(q[1..], name)
      else
        NamesCons(q[0], SetParam(q[1..], name, value));
        [q[0]] + SetParam(q[1..], name, value)
  }

  /** A name that is not among the names occurs in no pair. */
  lemma NotNamed(q: Params, name: string)
    requires name !in Names(q)
    ensures forall i :: 0 <= i < |q| ==> q[i].0 != name
  {
  }

  /** After `set`, the parameter reads back as the value set, and no other parameter changed. */
  lemma {:induction false} SetParamGet(q: Params, name: string, value: string)
    ensures GetParam(SetParam(q, name, value), name) == Some(value)
    ensures forall n :: n != name ==> GetParam(SetParam(q, name, value), n) == GetParam(q, n)
  {
    if q != [] && q[0].0 != name {
      SetParamGet(q[1..], name, value);
    }
  }

  // ---------------------------------------------------------------------------
  // The redirect policy.

  datatype Decision =
    | RedirectToLogin(target: Url)
    | RedirectHome(target: Url)
    | PassThrough

  /** Lines 51-65: the first matching rule decides; the target is the request URL with a new path. */
  function Decide(hasUser: bool, request: Url): (d: Decision)
    ensures d.RedirectToLogin? <==> !hasUser && IsProtected(request.pathname)
    ensures d.RedirectHome? <==> hasUser && IsAuthPage(request.pathname)
    ensures d.RedirectToLogin? ==>
      d.target == request.(pathname := "/login", search := SetParam(request.search, "next", request.pathname))
    ensures d.RedirectHome? ==> d.target == request.(pathname := "/")
  {
    if !hasUser && IsProtected(request.pathname) then
      RedirectToLogin(request.(pathname := "/login", search := SetParam(request.search, "next", request.pathname)))
    else if hasUser && IsAuthPage(request.pathname) then
      RedirectHome(request.(pathname := "/"))
    else PassThrough
  }

  /** An anonymous request for a protected path is sent to `/login?next=<the path>` on the same origin. */
  lemma AnonymousProtectedGoesToLogin(request: Url, route: string)
    requires route in ProtectedRoutes && StartsWith(request.pathname, route)
    ensures Decide(false, request).RedirectToLogin?
    ensures Decide(false, request).target.origin == request.origin
    ensures Decide(false, request).target.pathname == "/login"
    ensures GetParam(Decide(false, request).target.search, "next") == Some(request.pathname)
  {
    SetParamGet(request.search, "next", request.pathname);
  }

  /** Matching is by prefix: `/chatroom` and `/mypage-x` are guarded too. */
  lemma PrefixMatchingIsLoose(origin: string)
    ensures Decide(false, Url(origin, "/chatroom", [])).RedirectToLogin?
    ensures Decide(false, Url(origin, "/mypage-x", [])).RedirectToLogin?
  {
    assert StartsWith("/chatroom", ProtectedRoutes[1]);
    assert StartsWith("/mypage-x", ProtectedRoutes[0]);
  }

  /** A signed-in user on exactly `/login` or `/signup` goes home; `/login/extra` is passed on. */
  lemma SignedInAuthPageGoesHome(request: Url)
    ensures request.pathname in {"/login", "/signup"} ==>
      Decide(true, request) == RedirectHome(request.(pathname := "/"))
    ensures request.pathname == "/login/extra" ==> Decide(true, request) == PassThrough
  {
    if request.pathname == "/login/extra" {
      assert !IsAuthPage(request.pathname);
    }
  }

  /**
   * Everything else is passed on, including a signed-in user on a protected
   * path and an anonymous visitor on the login page.
   */
  lemma OtherRequestsPassThrough(hasUser: bool, request: Url)
    requires !(hasUser && IsAuthPage(request.pathname))
    requires !(!hasUser && IsProtected(request.pathname))
    ensures Decide(hasUser, request) == PassThrough
  {
  }

  lemma AnonymousOnLoginPassesThrough(request: Url)
    requires request.pathname == "/login"
    ensures Decide(false, request) == PassThrough
  {
    assert !StartsWith("/login", ProtectedRoutes[1]) by { assert "/login"[..5][2] != "/chat"[2]; }
  }

  // ---------------------------------------------------------------------------
  // Cookie propagation (`setAll`, lines 26-38).

  datatype CookieToSet = CookieToSet(name: string, value: string, options: seq<(string, string)>)

  datatype SetCookie = SetCookie(value: string, options: seq<(string, string)>)

  /**
   * A response: `NextResponse.next({ request })`, which forwards the request
   * cookies as they are when it is built and carries its own cookies, or a
   * redirect, which carries no cookies at all.
   */
  datatype Response =
    | Next(forwardedRequestCookies: map<string, string>, cookies: map<string, SetCookie>)
    | Redirect(location: Url)

  /** The request jar after writing a batch, one cookie after another. */
  function WriteRequestCookies(jar: map<string, string>, batch: seq<CookieToSet>): map<string, string>
  {
    if batch == [] then jar
    else
      var last := batch[|batch| - 1];
      WriteRequestCookies(jar, batch[..|batch| - 1])[last.name := last.value]
  }

  /** The cookies of a freshly built response after writing a batch. */
  function WriteResponseCookies(batch: seq<CookieToSet>): map<string, SetCookie>
  {
    if batch == [] then map[]
    else
      var last := batch[|batch| - 1];
      WriteResponseCookies(batch[..|batch| - 1])[last.name := SetCookie(last.value, last.options)]
  }

  /** The position in a batch whose write a cookie name keeps: its last one. */
  predicate LastWriteOf(batch: seq<CookieToSet>, i: int) {
    0 <= i < |batch| && forall j :: i < j < |batch| ==> batch[j].name != batch[i].name
  }

  /** A cookie name ends up in the jar with the value of its last write in the batch. */
  lemma {:induction false} RequestCookieLastWrite(jar: map<string, string>, batch: seq<CookieToSet>, i: int)
    requires LastWriteOf(batch, i)
    ensures batch[i].name in WriteRequestCookies(jar, batch)
    ensures WriteRequestCookies(jar, batch)[batch[i].name] == batch[i].value
  {
    if i < |batch| - 1 {
      var init := batch[..|batch| - 1];
      assert batch[|batch| - 1].name != batch[i].name;
      assert forall j :: i < j < |init| ==> init[j] == batch[j];
      RequestCookieLastWrite(jar, init, i);
    }
  }

  /** A cookie the batch does not write keeps its value, or stays absent. */
  lemma {:induction false} RequestCookieUntouched(jar: map<string, string>, batch: seq<CookieToSet>, n: string)
    requires forall i :: 0 <= i < |batch| ==> batch[i].name != n
    ensures n in WriteRequestCookies(jar, batch) <==> n in jar
    ensures n in jar ==> WriteRequestCookies(jar, batch)[n] == jar[n]
  {
    if batch != [] {
      var init := batch[..|batch| - 1];
      assert forall j :: 0 <= j < |init| ==> init[j] == batch[j];
      RequestCookieUntouched(jar, init, n);
    }
  }

  /** The rebuilt response carries each name of the batch with its last write. */
  lemma {:induction false} ResponseCookieLastWrite(batch: seq<CookieToSet>, i: int)
    requires LastWriteOf(batch, i)
    ensures batch[i].name in WriteResponseCookies(batch)
    ensures WriteResponseCookies(batch)[batch[i].name] == SetCookie(batch[i].value, batch[i].options)
  {
    if i < |batch| - 1 {
      var init := batch[..|batch| - 1];
      assert batch[|batch| - 1].name != batch[i].name;
      assert forall j :: i < j < |init| ==> init[j] == batch[j];
      ResponseCookieLastWrite(init, i);
    }
  }

  /** ... and no cookie the batch does not write. */
  lemma {:induction false} ResponseCookieUntouched(batch: seq<CookieToSet>, n: string)
    requires forall i :: 0 <= i < |batch| ==> batch[i].name != n
    ensures n !in WriteResponseCookies(batch)
  {
    if batch != [] {
      var init := batch[..|batch| - 1];
      assert forall j :: 0 <= j < |init| ==> init[j] == batch[j];
      ResponseCookieUntouched(init, n);
    }
  }

  /**
   * The state the guard's cookie adapter shares with the request: the
   * request's cookie jar and the `supabaseResponse` variable.
   */
  class CookieBridge {
    var requestCookies: map<string, string>
    var response: Response

    /** Line 14: the pass-through response is built before the provider is asked anything. */
    constructor (cookies: map<string, string>)
      ensures requestCookies == cookies
      ensures response == Next(cookies, map[])
    {
      requestCookies := cookies;
      response := Next(cookies, map[]);
    }

    /**
     * Lines 26-38: the batch is written into the request jar, a new
     * pass-through response is built from the updated request, and the
     * batch is written into that response's cookies.
     */
    method SetAll(batch: seq<CookieToSet>)
      modifies this
      ensures requestCookies == WriteRequestCookies(old(requestCookies), batch)
      ensures response == Next(requestCookies, WriteResponseCookies(batch))
    {
      var i := 0;
      while i < |batch|
        invariant 0 <= i <= |batch|
        invariant requestCookies == WriteRequestCookies(old(requestCookies), batch[..i])
      {
        assert batch[..i + 1][..i] == batch[..i];
        requestCookies := requestCookies[batch[i].name := batch[i].value];
        i := i + 1;
      }
      assert batch[..|batch|] == batch;
      var cookies: map<string, SetCookie> := map[];
      i := 0;
      while i < |batch|
        invariant 0 <= i <= |batch|
        invariant cookies == WriteResponseCookies(batch[..i])
      {
        assert batch[..i + 1][..i] == batch[..i];
        cookies := cookies[batch[i].name := SetCookie(batch[i].value, batch[i].options)];
        i := i + 1;
      }
      response := Next(requestCookies, cookies);
    }
  }

  /** The request jar after the provider's `setAll` calls, in order. */
  function WriteAllBatches(jar: map<string, string>, calls: seq<seq<CookieToSet>>): map<string, string>
  {
    if calls == [] then jar
    else WriteRequestCookies(WriteAllBatches(jar, calls[..|calls| - 1]), calls[|calls| - 1])
  }

  /** What the guard answers, given what the provider resolved and which cookie writes it issued. */
  function GuardResponse(request: Url, cookies: map<string, string>, calls: seq<seq<CookieToSet>>, hasUser: bool): Response
  {
    match Decide(hasUser, request)
    case RedirectToLogin(target) => Redirect(target)
    case RedirectHome(target) => Redirect(target)
    case PassThrough =>
      Next(WriteAllBatches(cookies, calls), if calls == [] then map[] else WriteResponseCookies(calls[|calls| - 1]))
  }

  /**
   * The whole guard: the provider's user check may call `setAll` any number
   * of times (`calls`) and resolves to a user or to none (`hasUser`); the
   * policy then runs on the refreshed state.
   */
  method Middleware(request: Url, cookies: map<string, string>, calls: seq<seq<CookieToSet>>, hasUser: bool)
    returns (response: Response, forwarded: map<string, string>)
    ensures forwarded == WriteAllBatches(cookies, calls)
    ensures response == GuardResponse(request, cookies, calls, hasUser)
  {
    var bridge := new CookieBridge(cookies);
    var k := 0;
    while k < |calls|
      invariant 0 <= k <= |calls|
      invariant bridge.requestCookies == WriteAllBatches(cookies, calls[..k])
      invariant bridge.response ==
        Next(bridge.requestCookies, if k == 0 then map[] else WriteResponseCookies(calls[k - 1]))
    {
      assert calls[..k + 1][..k] == calls[..k];
      bridge.SetAll(calls[k]);
      k := k + 1;
    }
    assert calls[..|calls|] == calls;
    forwarded := bridge.requestCookies;
    match Decide(hasUser, request)
    case RedirectToLogin(target) =>
      response := Redirect(target);
    case RedirectHome(target) =>
      response := Redirect(target);
    case PassThrough =>
      response := bridge.response;
  }

  /** A pass-through answer carries the latest batch's cookies; a redirect carries none of them. */
  lemma PassThroughCarriesLatestBatch(request: Url, cookies: map<string, string>, calls: seq<seq<CookieToSet>>, hasUser: bool, i: int)
    requires calls != [] && LastWriteOf(calls[|calls| - 1], i)
    ensures Decide(hasUser, request).PassThrough? ==>
      var r := GuardResponse(request, cookies, calls, hasUser);
      r.Next? && calls[|calls| - 1][i].name in r.cookies &&
      r.cookies[calls[|calls| - 1][i].name].value == calls[|calls| - 1][i].value
    ensures !Decide(hasUser, request).PassThrough? ==> GuardResponse(request, cookies, calls, hasUser).Redirect?
  {
    ResponseCookieLastWrite(calls[|calls| - 1], i);
  }
}
