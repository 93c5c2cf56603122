/**
 * The authentication session store: five fields (`user`, `session`,
 * `isAuthenticated`, `isLoading`, `error`) and the actions that update
 * them in place. `Apply` gives the effect of one action on a snapshot of
 * the state; the class `AuthStore` holds the fields and its methods are
 * proved to have exactly that effect. `Partialize` is the part of the
 * state that is persisted.
 *
 * The clock and date parsing are inputs: `now` is an integer timestamp,
 * and a session's `expiresAt` is the already-parsed instant, which may be
 * an invalid date (the source parses it with `new Date(...)`).
 */
module AuthStore {
  import opened JsText

  datatype User = User(
    id: string,
    email: string,
    name: string,
    emailVerified: bool,
    createdAt: string,
    updatedAt: string)

  /** A parsed `Date`: a millisecond timestamp, or an invalid date (its value is NaN). */
  datatype Instant = Millis(ms: int) | InvalidDate

  datatype Session = Session(id: string, token: string, expiresAt: Instant)

  datatype AuthState = AuthState(
    user: Option<User>,
    session: Option<Session>,
    isAuthenticated: bool,
    isLoading: bool,
    error: Option<string>)

  /** The store's initial state: nobody signed in, not loading, no error. */
  const Initial := AuthState(None, None, false, false, None)

  /** The store's actions, with the arguments each one takes. */
  datatype Action =
    | SetUser(user: User)
    | SetSession(session: Session)
    | Login(user: User, session: Session)
    | Logout
    | SetLoading(loading: bool)
    | SetError(error: Option<string>)
    | ClearError
    | CheckAuthStatus(now: int)

  /**
   * `now >= expiresAt` on two `Date`s compares their numeric values; any
   * comparison with NaN is false, so an invalid date never counts as expired.
   */
  predicate IsExpired(now: int, expiresAt: Instant) {
    match expiresAt
    case Millis(ms) => now >= ms
    case InvalidDate => false
  }

  /** The state after one action (each `set` merges its fields into the state). */
  function Apply(s: AuthState, a: Action): AuthState {
    match a
    case SetUser(u) => s.(user := Some(u))
    case SetSession(se) => s.(session := Some(se))
    case Login(u, se) => s.(user := Some(u), session := Some(se), isAuthenticated := true, error := None)
    case Logout => LoggedOut(s)
    case SetLoading(b) => s.(isLoading := b)
    case SetError(e) => s.(error := e)
    case ClearError => s.(error := None)
    case CheckAuthStatus(now) =>
      match s.session
      case None => s.(isAuthenticated := false, user := None)
      case Some(se) =>
        if IsExpired(now, se.expiresAt) then LoggedOut(s) else s.(isAuthenticated := true)
  }

  /** The effect of `logout`, which `checkAuthStatus` also invokes on an expired session. */
  function LoggedOut(s: AuthState): AuthState {
    s.(user := None, session := None, isAuthenticated := false, error := None)
  }

  /** The state after a sequence of actions, applied from left to right. */
  function Run(s: AuthState, actions: seq<Action>): AuthState
    decreases |actions|
  {
    if actions == [] then s else Run(Apply(s, actions[0]), actions[1..])
  }

  /** The store's invariant: it only claims to be authenticated while it holds a session. */
  predicate SessionBacked(s: AuthState) {
    s.isAuthenticated ==> s.session.Some?
  }

  /** What `partialize` hands to persistent storage. */
  datatype PersistedAuth = PersistedAuth(user: Option<User>, session: Option<Session>, isAuthenticated: bool)

  function Partialize(s: AuthState): PersistedAuth {
    PersistedAuth(s.user, s.session, s.isAuthenticated)
  }

  // ----- properties of the actions -----

  /** `login` sets user and session, authenticates and clears the error; `isLoading` is untouched. */
  lemma LoginEffect(s: AuthState, u: User, se: Session)
    ensures Apply(s, Login(u, se)) == AuthState(Some(u), Some(se), true, s.isLoading, None)
  {
  }

  /** `logout` clears user, session and error, de-authenticates, keeps `isLoading`, and is idempotent. */
  lemma LogoutEffect(s: AuthState)
    ensures Apply(s, Logout) == AuthState(None, None, false, s.isLoading, None)
    ensures Apply(Apply(s, Logout), Logout) == Apply(s, Logout)
  {
  }

  /** Each single-field setter changes its own field and nothing else; `clearError` is `setError(null)`. */
  lemma SettersChangeOnlyTheirField(s: AuthState, u: User, se: Session, b: bool, e: Option<string>)
    ensures Apply(s, SetUser(u)) == s.(user := Some(u))
    ensures Apply(s, SetSession(se)) == s.(session := Some(se))
    ensures Apply(s, SetLoading(b)) == s.(isLoading := b)
    ensures Apply(s, SetError(e)) == s.(error := e)
    ensures Apply(s, ClearError) == Apply(s, SetError(None))
  {
  }

  /** Without a session, `checkAuthStatus` de-authenticates and drops the user, leaving error and loading alone. */
  lemma CheckWithoutSession(s: AuthState, now: int)
    requires s.session.None?
    ensures Apply(s, CheckAuthStatus(now)) == s.(isAuthenticated := false, user := None)
  {
  }

  /** With an expired session (`now >= expiresAt`, the boundary included) the check is exactly `logout`. */
  lemma CheckExpiredIsLogout(s: AuthState, now: int)
    requires s.session.Some? && s.session.value.expiresAt.Millis?
    requires now >= s.session.value.expiresAt.ms
    ensures Apply(s, CheckAuthStatus(now)) == Apply(s, Logout)
  {
  }

  /** With a session that has not expired the check only sets `isAuthenticated`. */
  lemma CheckValidOnlyAuthenticates(s: AuthState, now: int)
    requires s.session.Some? && !IsExpired(now, s.session.value.expiresAt)
    ensures Apply(s, CheckAuthStatus(now)) == s.(isAuthenticated := true)
  {
  }

  /**
   * After `checkAuthStatus`, the store is authenticated if and only if it held
   * a session that had not expired at `now`; a second check at the same
   * instant changes nothing.
   */
  lemma CheckAuthStatusDecides(s: AuthState, now: int)
    ensures Apply(s, CheckAuthStatus(now)).isAuthenticated
        <==> (s.session.Some? && !IsExpired(now, s.session.value.expiresAt))
    ensures Apply(Apply(s, CheckAuthStatus(now)), CheckAuthStatus(now)) == Apply(s, CheckAuthStatus(now))
  {
  }

  /** Every action keeps the invariant. */
  lemma ApplyKeepsSessionBacked(s: AuthState, a: Action)
    requires SessionBacked(s)
    ensures SessionBacked(Apply(s, a))
  {
  }

  /** Any sequence of actions keeps the invariant. */
  lemma {:induction false} RunKeepsSessionBacked(s: AuthState, actions: seq<Action>)
    requires SessionBacked(s)
    ensures SessionBacked(Run(s, actions))
    decreases |actions|
  {
    if actions != [] {
      ApplyKeepsSessionBacked(s, actions[0]);
      RunKeepsSessionBacked(Apply(s, actions[0]), actions[1..]);
    }
  }

  /** Every state the store can reach from its initial state satisfies the invariant. */
  lemma ReachableIsSessionBacked(actions: seq<Action>)
    ensures SessionBacked(Run(Initial, actions))
  {
    RunKeepsSessionBacked(Initial, actions);
  }

  /** The persisted snapshot is determined by user, session and isAuthenticated, and by nothing else. */
  lemma PartializeExactlyPersisted(s: AuthState, t: AuthState)
    ensures Partialize(s) == Partialize(t)
        <==> (s.user == t.user && s.session == t.session && s.isAuthenticated == t.isAuthenticated)
  {
  }

  /** `isLoading` and `error` never reach storage: changing them leaves the snapshot as it was. */
  lemma PartializeIgnoresTransient(s: AuthState, b: bool, e: Option<string>)
    ensures Partialize(Apply(s, SetLoading(b))) == Partialize(s)
    ensures Partialize(Apply(s, SetError(e))) == Partialize(s)
    ensures Partialize(Apply(s, ClearError)) == Partialize(s)
  {
  }

  /** After `login` or `logout` the persisted snapshot no longer depends on the earlier state. */
  lemma PartializeAfterLoginLogout(s: AuthState, u: User, se: Session)
    ensures Partialize(Apply(s, Login(u, se))) == PersistedAuth(Some(u), Some(se), true)
    ensures Partialize(Apply(s, Logout)) == PersistedAuth(None, None, false)
  {
  }

  /**
   * The object the source creates: the five fields, updated in place by
   * its actions. `checkAuthStatus` reads the current session first and, when
   * it has expired, calls the store's own `logout`.
   */
  class AuthStore {
    var user: Option<User>
    var session: Option<Session>
    var isAuthenticated: bool
    var isLoading: bool
    var error: Option<string>

    /** The current state as a value. */
    function State(): AuthState
      reads this
    {
      AuthState(user, session, isAuthenticated, isLoading, error)
    }

    constructor ()
      ensures State() == Initial
      ensures SessionBacked(State())
    {
      user, session, isAuthenticated, isLoading, error := None, None, false, false, None;
    }

    method SetUser(u: User)
      modifies this
      ensures user == Some(u)
      ensures session == old(session) && isAuthenticated == old(isAuthenticated)
      ensures isLoading == old(isLoading) && error == old(error)
      ensures State() == Apply(old(State()), Action.SetUser(u))
    {
      user := Some(u);
    }

    method SetSession(se: Session)
      modifies this
      ensures session == Some(se)
      ensures user == old(user) && isAuthenticated == old(isAuthenticated)
      ensures isLoading == old(isLoading) && error == old(error)
      ensures State() == Apply(old(State()), Action.SetSession(se))
    {
      session := Some(se);
    }

    method Login(u: User, se: Session)
      modifies this
      ensures user == Some(u) && session == Some(se) && isAuthenticated && error == None
      ensures isLoading == old(isLoading)
      ensures State() == Apply(old(State()), Action.Login(u, se))
    {
      user, session, isAuthenticated, error := Some(u), Some(se), true, None;
    }

    method Logout()
      modifies this
      ensures user == None && session == None && !isAuthenticated && error == None
      ensures isLoading == old(isLoading)
      ensures State() == Apply(old(State()), Action.Logout)
    {
      user, session, isAuthenticated, error := None, None, false, None;
    }

    method SetLoading(b: bool)
      modifies this
      ensures isLoading == b
      ensures user == old(user) && session == old(session)
      ensures isAuthenticated == old(isAuthenticated) && error == old(error)
      ensures State() == Apply(old(State()), Action.SetLoading(b))
    {
      isLoading := b;
    }

    method SetError(e: Option<string>)
      modifies this
      ensures error == e
      ensures user == old(user) && session == old(session)
      ensures isAuthenticated == old(isAuthenticated) && isLoading == old(isLoading)
      ensures State() == Apply(old(State()), Action.SetError(e))
    {
      error := e;
    }

    method ClearError()
      modifies this
      ensures error == None
      ensures user == old(user) && session == old(session)
      ensures isAuthenticated == old(isAuthenticated) && isLoading == old(isLoading)
      ensures State() == Apply(old(State()), Action.ClearError)
    {
      error := None;
    }

    method CheckAuthStatus(now: int)
      modifies this
      ensures old(session).None? ==>
        !isAuthenticated && user == None && session == None
        && error == old(error) && isLoading == old(isLoading)
      ensures old(session).Some? && IsExpired(now, old(session).value.expiresAt) ==>
        State() == Apply(old(State()), Action.Logout)
      ensures old(session).Some? && !IsExpired(now, old(session).value.expiresAt) ==>
        State() == old(State()).(isAuthenticated := true)
      ensures State() == Apply(old(State()), Action.CheckAuthStatus(now))
    {
      var current := session;
      if current.None? {
        isAuthenticated, user := false, None;
        return;
      }
      if IsExpired(now, current.value.expiresAt) {
        Logout();
        return;
      }
      isAuthenticated := true;
    }
  }
}
