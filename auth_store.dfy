/**
 * The global authentication store of the front end (`useAuthStore.ts`): the
 * current provider user and session, whether the first session check is
 * still running, and whether a user is signed in. Every action overwrites
 * the user, the session and the flag together from one session value.
 */
module AuthStore {
  import opened Wrappers
  import opened Identity

  /** The four state fields of the store. */
  datatype Snapshot = Snapshot(user: Option<User>, session: Option<Session>, isLoading: bool, isAuthenticated: bool)

  /**
   * The state fields written from one session (`set({ user: session?.user ?? null,
   * session, isAuthenticated: !!session?.user })`), with the loading flag as given.
   */
  function Synced(session: Option<Session>, isLoading: bool): Snapshot {
    Snapshot(UserOf(session), session, isLoading, UserOf(session).Some?)
  }

  /** The user is the session's user, and the store says "signed in" exactly when there is one. */
  predicate Consistent(s: Snapshot) {
    s.user == UserOf(s.session) && (s.isAuthenticated <==> s.user.Some?)
  }

  /** A consistent state is determined by its session and its loading flag, and only those are. */
  lemma ConsistentIffSynced(s: Snapshot)
    ensures Consistent(s) <==> s == Synced(s.session, s.isLoading)
  {
  }

  /** Writing the same session twice is the same as writing it once. */
  lemma SyncedIdempotent(session: Option<Session>, isLoading: bool)
    ensures var once := Synced(session, isLoading);
      Synced(once.session, once.isLoading) == once
  {
  }

  /** A session without a user signs nobody in, even though the session is kept. */
  lemma UserlessSessionIsSignedOut(session: Session, isLoading: bool)
    requires session.user.None?
    ensures Synced(Some(session), isLoading).session == Some(session)
    ensures !Synced(Some(session), isLoading).isAuthenticated
    ensures Synced(Some(session), isLoading).user.None?
  {
  }

  class AuthState {
    var user: Option<User>
    var session: Option<Session>
    var isLoading: bool
    var isAuthenticated: bool
    /** How many session-change listeners `initialize` has registered with the provider. */
    var listeners: nat

    function State(): Snapshot
      reads this
    {
      Snapshot(user, session, isLoading, isAuthenticated)
    }

    /** The store's invariant. */
    predicate Valid()
      reads this
    {
      Consistent(State())
    }

    /** Lines 25-29: nobody signed in, the first check pending, no listener yet. */
    constructor ()
      ensures State() == Synced(None, true)
      ensures listeners == 0
      ensures Valid()
    {
      user := None;
      session := None;
      isLoading := true;
      isAuthenticated := false;
      listeners := 0;
    }

    /**
     * Lines 35-58: `current` is what the provider's `getSession()` answered.
     * The store takes it, stops loading and registers one more listener.
     */
    method Initialize(current: Option<Session>)
      modifies this
      ensures State() == Synced(current, false)
      ensures listeners == old(listeners) + 1
      ensures Valid()
    {
      user := UserOf(current);
      session := current;
      isLoading := false;
      isAuthenticated := UserOf(current).Some?;
      listeners := listeners + 1;
    }

    /**
     * Lines 51-57: the provider reports a session change. Only a store that
     * has registered a listener hears it; the loading flag is not touched.
     */
    method OnAuthStateChange(changed: Option<Session>)
      requires Valid()
      modifies this
      ensures old(listeners) > 0 ==> State() == Synced(changed, old(isLoading))
      ensures old(listeners) == 0 ==> State() == old(State())
      ensures listeners == old(listeners)
      ensures Valid()
    {
      if listeners > 0 {
        user := UserOf(changed);
        session := changed;
        isAuthenticated := UserOf(changed).Some?;
      }
    }

    /**
     * Lines 63-71: the provider is asked to sign out and, whatever it answers,
     * the store forgets the user and the session.
     */
    method SignOut()
      modifies this
      ensures State() == Synced(None, old(isLoading))
      ensures listeners == old(listeners)
      ensures Valid()
    {
      user := None;
      session := None;
      isAuthenticated := false;
    }

    /** Lines 76-82: a session given from outside replaces the current one. */
    method SetSession(given: Option<Session>)
      modifies this
      ensures State() == Synced(given, old(isLoading))
      ensures listeners == old(listeners)
      ensures Valid()
    {
      user := UserOf(given);
      session := given;
      isAuthenticated := UserOf(given).Some?;
    }
  }
}
