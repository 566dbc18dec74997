/**
 * The site header (`Header.tsx`): it starts the authentication store when it
 * mounts, shows the signed-in actions, the visitor actions or nothing while
 * the store is loading, and signs the user out.
 */
module Header {
  import opened Wrappers
  import opened Text
  import opened Identity
  import opened AuthStore
  import opened Navigation

  const FallbackName := "사용자"

  /**
   * Lines 73-75: `user_metadata.name || email.split("@")[0] || "사용자"`,
   * each alternative taken only when it is a non-empty string.
   */
  function DisplayName(user: Option<User>): (r: string)
    ensures r != []
    ensures user.Some? && user.value.metadataName.Some? && user.value.metadataName.value != [] ==>
      r == user.value.metadataName.value
    ensures r != FallbackName && (user.None? || user.value.metadataName.None? || user.value.metadataName.value == []) ==>
      user.Some? && user.value.email.Some? && StartsWith(user.value.email.value, r) && '@' !in r
  {
    if user.Some? && user.value.metadataName.Some? && user.value.metadataName.value != [] then
      user.value.metadataName.value
    else if user.Some? && user.value.email.Some? && BeforeFirst(user.value.email.value, '@') != [] then
      BeforeFirst(user.value.email.value, '@')
    else FallbackName
  }

  /** Without a name, the part of the e-mail before `@` is shown; an address that starts with `@` gives the fallback. */
  lemma DisplayNameFromEmail(id: string, local: string, domain: string)
    requires '@' !in local
    ensures local != [] ==> DisplayName(Some(User(id, Some(local + "@" + domain), None))) == local
    ensures local == [] ==> DisplayName(Some(User(id, Some(local + "@" + domain), None))) == FallbackName
  {
    var e := local + "@" + domain;
    var b := BeforeFirst(e, '@');
    assert e[..|local|] == local;
    assert e[|local|] == '@';
    assert forall i :: 0 <= i < |local| ==> e[i] == local[i];
    assert b == local;
  }

  /** What the right-hand side of the header shows (lines 43, 88 and 122). */
  datatype View = SignedIn(name: string) | Visitor | Blank

  function ViewOf(s: Snapshot): (v: View)
    ensures v.SignedIn? <==> !s.isLoading && s.isAuthenticated
    ensures v.Visitor? <==> !s.isLoading && !s.isAuthenticated
    ensures v.Blank? <==> s.isLoading
  {
    if !s.isLoading && s.isAuthenticated then SignedIn(DisplayName(s.user))
    else if !s.isLoading then Visitor
    else Blank
  }

  /** The link targets each view renders: two to the profile page, and for visitors also the login page (line 119). */
  function Links(v: View): (r: seq<string>)
    ensures "/login" in r <==> v.Visitor?
  {
    match v
    case SignedIn(_) => ["/mypage", "/mypage"]
    case Visitor => ["/mypage", "/mypage", "/login"]
    case Blank => []
  }

  /** In a consistent store, a signed-in header names the store's own user. */
  lemma SignedInNamesUser(s: Snapshot)
    requires Consistent(s)
    requires ViewOf(s).SignedIn?
    ensures s.session.Some? && s.session.value.user.Some?
    ensures ViewOf(s).name == DisplayName(s.session.value.user)
  {
  }

  /** After signing out the header offers the login link, unless the first check is still loading. */
  lemma SignedOutShowsLogin(isLoading: bool)
    ensures !isLoading ==> ViewOf(Synced(None, isLoading)) == Visitor && "/login" in Links(ViewOf(Synced(None, isLoading)))
    ensures isLoading ==> Links(ViewOf(Synced(None, isLoading))) == []
  {
  }

  class HeaderComponent {
    const router: Router
    const store: AuthState

    constructor (router: Router, store: AuthState)
      ensures this.router == router && this.store == store
    {
      this.router := router;
      this.store := store;
    }

    /** Lines 16-18: on mount, the store is initialised with what the provider reports. */
    method Mount(current: Option<Session>)
      modifies store
      ensures store.State() == Synced(current, false)
      ensures store.listeners == old(store.listeners) + 1
      ensures store.Valid()
    {
      store.Initialize(current);
    }

    /** Lines 21-25: sign out, go to the home page, and refresh it. */
    method HandleSignOut()
      modifies store, router
      ensures store.State() == Synced(None, old(store.isLoading))
      ensures store.Valid()
      ensures router.history == old(router.history) + ["/"]
      ensures router.refreshes == old(router.refreshes) + 1
    {
      store.SignOut();
      router.Push("/");
      router.Refresh();
    }
  }
}
