/**
 * The session manager of `src/contexts/AuthContext.tsx`.
 *
 * Five pieces of state: the in-memory `user`, `token` and `isLoading`, the
 * browser's durable `auth_token` entry (`store`) and the `auth_token` cookie
 * the edge guard reads (`cookie`). Each network call is replaced by a
 * parameter that says how it turned out; each asynchronous operation runs to
 * completion before the next one starts.
 *
 * The transitions are first written as functions on a `SessionState` value,
 * and the properties are proved about those; the class `AuthProvider` then
 * holds the five fields and its methods are proved to move its state exactly
 * as the functions say.
 */
module AuthContext {
  import opened Options
  import opened JsStrings
  import opened Types
  import EdgeRequest
  import Proxy

  /** The in-memory React state together with the two browser stores. */
  datatype SessionState = SessionState(
    user: Option<User>,
    token: Option<string>,
    isLoading: bool,
    store: Option<string>,
    cookie: Option<string>)

  /** How `GET /api/v1/user/me` turned out: a profile, or any failure (a non-ok status, a network error, a body that is not JSON). */
  datatype ProfileOutcome = ProfileOk(data: User) | ProfileFail

  /**
   * How `POST /api/v1/user/login` turned out: a token; a non-ok status whose
   * body's `message` may be missing or empty; or an exception of its own
   * (network error, unreadable body), whose message is passed on.
   */
  datatype LoginOutcome = LoginOk(jwt: string) | LoginRejected(message: Option<string>) | LoginThrew(error: string)

  /** What `login` leaves behind, and the message of the error it raises, if it raises one. */
  datatype LoginResult = LoginResult(state: SessionState, raised: Option<string>)

  /** The message `login` raises when a rejection comes without one. */
  const LoginFailedMessage: string := "Login failed"

  /** `isAuthenticated = !!user && !!token`. */
  predicate Authenticated(s: SessionState)
    ensures Authenticated(s) && Mirrored(s) ==> IsTruthy(s.store) && IsTruthy(s.cookie)
  {
    s.user.Some? && IsTruthy(s.token)
  }

  /**
   * The drift-freedom the TypeScript code keeps by convention: the durable store and
   * the cookie hold the same token, and an in-memory token is the stored one.
   */
  predicate Mirrored(s: SessionState) {
    s.store == s.cookie && (s.token.Some? ==> s.token == s.store)
  }

  /** The state before the mount effect: nothing in memory, loading, and whatever the browser kept. */
  function Initial(store: Option<string>, cookie: Option<string>): (s: SessionState)
    ensures !Authenticated(s) && s.isLoading
    ensures s.user.None? && s.token.None? && s.store == store && s.cookie == cookie
    ensures Mirrored(s) <==> store == cookie
  {
    SessionState(None, None, true, store, cookie)
  }

  /** `fetchUserProfile`: a success replaces the user; a failure clears the token everywhere; loading ends either way. */
  function AfterProfileFetch(s: SessionState, outcome: ProfileOutcome): (t: SessionState)
    ensures !t.isLoading
  {
    match outcome
    case ProfileOk(u) => s.(user := Some(u), isLoading := false)
    case ProfileFail => s.(user := None, token := None, isLoading := false, store := None, cookie := None)
  }

  /** The mount effect: a non-empty saved token becomes the in-memory token and is checked by a profile fetch. */
  function AfterMount(s: SessionState, outcome: ProfileOutcome): (t: SessionState)
    ensures !t.isLoading
  {
    if IsTruthy(s.store) then AfterProfileFetch(s.(token := s.store), outcome)
    else s.(isLoading := false)
  }

  /** `login`: on a token, store it in both places and in memory, then fetch the profile. */
  function AfterLogin(s: SessionState, outcome: LoginOutcome, profile: ProfileOutcome): (r: LoginResult)
    ensures !r.state.isLoading
  {
    match outcome
    case LoginOk(jwt) =>
      var stored := s.(isLoading := true, store := Some(jwt), cookie := Some(jwt), token := Some(jwt));
      LoginResult(AfterProfileFetch(stored, profile).(isLoading := false), None)
    case LoginRejected(message) =>
      LoginResult(s.(isLoading := false), Some(if IsTruthy(message) then message.value else LoginFailedMessage))
    case LoginThrew(message) =>
      LoginResult(s.(isLoading := false), Some(message))
  }

  /** `logout`: forget the token everywhere and the user; `isLoading` is not touched. */
  function AfterLogout(s: SessionState): (t: SessionState)
    ensures t.isLoading == s.isLoading
  {
    s.(user := None, token := None, store := None, cookie := None)
  }

  // ---------------------------------------------------------------------------
  // Properties of the transitions

  /** A token without a user never authenticates, nor does a user with an empty or missing token. */
  lemma TokenAloneIsNotAuthenticated(s: SessionState)
    ensures s.user.None? ==> !Authenticated(s)
    ensures !IsTruthy(s.token) ==> !Authenticated(s)
    ensures Authenticated(s) <==> s.user.Some? && s.token.Some? && s.token.value != ""
  {
  }

  /** At mount without a saved token, only `isLoading` changes. */
  lemma MountWithoutSavedToken(s: SessionState, outcome: ProfileOutcome)
    requires !IsTruthy(s.store)
    ensures AfterMount(s, outcome) == s.(isLoading := false)
  {
  }

  /**
   * At mount with a saved token: a good profile authenticates with that
   * token; a failed one (the token is stale) leaves nothing stored, nothing
   * in memory, and raises nothing.
   */
  lemma MountWithSavedToken(s: SessionState, outcome: ProfileOutcome)
    requires IsTruthy(s.store)
    ensures outcome.ProfileOk? ==>
              var t := AfterMount(s, outcome);
              t.token == s.store && t.user == Some(outcome.data) && t.store == s.store && t.cookie == s.cookie
              && Authenticated(t)
    ensures outcome.ProfileFail? ==>
              AfterMount(s, outcome) == SessionState(None, None, false, None, None)
  {
  }

  /** A successful profile fetch replaces the user wholesale and leaves the token and both stores alone. */
  lemma ProfileSuccessKeepsToken(s: SessionState, u: User)
    ensures var t := AfterProfileFetch(s, ProfileOk(u));
            t.user == Some(u) && t.token == s.token && t.store == s.store && t.cookie == s.cookie && !t.isLoading
  {
  }

  /** A failed profile fetch removes the token from memory, store and cookie and forgets the user. */
  lemma ProfileFailureClears(s: SessionState)
    ensures AfterProfileFetch(s, ProfileFail) == SessionState(None, None, false, None, None)
    ensures !Authenticated(AfterProfileFetch(s, ProfileFail))
  {
  }

  /**
   * A rejected login raises the server's message, or `"Login failed"` when it
   * has none; an exception's own message is raised as it is; in both cases
   * token, user and both stores are as they were, and loading has ended.
   */
  lemma LoginFailureLeavesSession(s: SessionState, outcome: LoginOutcome, profile: ProfileOutcome)
    requires !outcome.LoginOk?
    ensures var r := AfterLogin(s, outcome, profile);
            r.state == s.(isLoading := false) && r.raised.Some?
    ensures outcome.LoginRejected? && IsTruthy(outcome.message) ==>
              AfterLogin(s, outcome, profile).raised == outcome.message
    ensures outcome.LoginRejected? && !IsTruthy(outcome.message) ==>
              AfterLogin(s, outcome, profile).raised == Some(LoginFailedMessage)
    ensures outcome.LoginThrew? ==> AfterLogin(s, outcome, profile).raised == Some(outcome.error)
  {
  }

  /** The rejected-credentials scenario: a 401 with message "Invalid credentials" on a fresh session. */
  lemma InvalidCredentialsScenario()
    ensures var r := AfterLogin(AfterMount(Initial(None, None), ProfileFail), LoginRejected(Some("Invalid credentials")), ProfileFail);
            r.raised == Some("Invalid credentials") && !Authenticated(r.state) && r.state.store == None && r.state.cookie == None
  {
  }

  /**
   * A successful login returns normally and ends in one of two states:
   * authenticated, with the token in memory, store and cookie (unless the
   * server's token is the empty string), or, when the profile fetch fails,
   * fully cleared.
   */
  lemma LoginSuccessOutcomes(s: SessionState, jwt: string, profile: ProfileOutcome)
    ensures AfterLogin(s, LoginOk(jwt), profile).raised == None
    ensures profile.ProfileOk? ==>
              var t := AfterLogin(s, LoginOk(jwt), profile).state;
              t == SessionState(Some(profile.data), Some(jwt), false, Some(jwt), Some(jwt))
              && (Authenticated(t) <==> jwt != "")
    ensures profile.ProfileFail? ==>
              AfterLogin(s, LoginOk(jwt), profile).state == SessionState(None, None, false, None, None)
  {
  }

  /** `logout` clears the token everywhere and the user, and keeps `isLoading`. */
  lemma LogoutClears(s: SessionState)
    ensures AfterLogout(s) == SessionState(None, None, s.isLoading, None, None)
    ensures !Authenticated(AfterLogout(s)) && Mirrored(AfterLogout(s))
  {
  }

  /** Logging out twice is logging out once. */
  lemma LogoutIdempotent(s: SessionState)
    ensures AfterLogout(AfterLogout(s)) == AfterLogout(s)
  {
  }

  // ---------------------------------------------------------------------------
  // The invariant over any sequence of operations

  /**
   * One operation the provider exposes or runs by itself, with the outcomes
   * of the network calls it makes (`fetchUserProfile` is only ever called
   * from the mount effect and from `login`).
   */
  datatype Operation =
    | Mount(profile: ProfileOutcome)
    | Login(outcome: LoginOutcome, profile: ProfileOutcome)
    | Logout

  /** The state after one operation. */
  function Step(s: SessionState, op: Operation): SessionState {
    match op
    case Mount(p) => AfterMount(s, p)
    case Login(o, p) => AfterLogin(s, o, p).state
    case Logout => AfterLogout(s)
  }

  /** The state after the operations, in order. */
  function Run(s: SessionState, ops: seq<Operation>): SessionState
    decreases |ops|
  {
    if ops == [] then s else Run(Step(s, ops[0]), ops[1..])
  }

  /** Every write site updates the store and the cookie together, so each operation keeps them mirrored. */
  lemma StepPreservesMirrored(s: SessionState, op: Operation)
    requires Mirrored(s)
    ensures Mirrored(Step(s, op))
  {
  }

  /** Mirroring holds after any sequence of operations that starts from a mirrored state. */
  lemma {:induction false} RunPreservesMirrored(s: SessionState, ops: seq<Operation>)
    requires Mirrored(s)
    ensures Mirrored(Run(s, ops))
    decreases |ops|
  {
    if ops != [] {
      StepPreservesMirrored(s, ops[0]);
      RunPreservesMirrored(Step(s, ops[0]), ops[1..]);
    }
  }

  /**
   * From a first render whose store and cookie agree, after any operations,
   * an authenticated session has its token in the store and in the cookie.
   */
  lemma AuthenticatedTokenIsStoredTwice(saved: Option<string>, ops: seq<Operation>)
    ensures var t := Run(Initial(saved, saved), ops);
            Authenticated(t) ==> t.store == t.token && t.cookie == t.token
  {
    RunPreservesMirrored(Initial(saved, saved), ops);
  }

  /**
   * The two tiers meet: while a mirrored session is authenticated, the cookie
   * carries its token, so the edge guard lets every path through.
   */
  lemma AuthenticatedSessionPassesEdge(s: SessionState, pathname: string, authorization: Option<string>)
    requires Mirrored(s) && Authenticated(s)
    ensures Proxy.Proxy(EdgeRequest.Request(pathname, s.cookie, authorization)) == EdgeRequest.Next
  {
  }

  // ---------------------------------------------------------------------------
  // The provider object

  /** `AuthProvider`: the five pieces of state, updated in place. */
  class AuthProvider {
    var user: Option<User>
    var token: Option<string>
    var isLoading: bool
    /** `localStorage.getItem('auth_token')`. */
    var store: Option<string>
    /** The value of the `auth_token` cookie, `None` once it has expired. */
    var cookie: Option<string>

    /** The provider's state as a value. */
    function Snapshot(): SessionState
      reads this
    {
      SessionState(user, token, isLoading, store, cookie)
    }

    /** `isAuthenticated`. */
    function IsAuthenticated(): (b: bool)
      reads this
      ensures b <==> user.Some? && token.Some? && token.value != ""
    {
      Authenticated(Snapshot())
    }

    /** The first render, on a browser that kept `savedStore` and `savedCookie`. */
    constructor (savedStore: Option<string>, savedCookie: Option<string>)
      ensures Snapshot() == Initial(savedStore, savedCookie)
    {
      user, token, isLoading := None, None, true;
      store, cookie := savedStore, savedCookie;
    }

    /** `fetchUserProfile(authToken)`; `outcome` is the server's answer for `authToken`. */
    method FetchUserProfile(authToken: string, outcome: ProfileOutcome)
      modifies this
      ensures Snapshot() == AfterProfileFetch(old(Snapshot()), outcome)
    {
      match outcome {
        case ProfileOk(u) =>
          user := Some(u);
        case ProfileFail =>
          store := None;
          cookie := None;
          token := None;
          user := None;
      }
      isLoading := false;
    }

    /** The mount effect. */
    method Mount(outcome: ProfileOutcome)
      modifies this
      ensures Snapshot() == AfterMount(old(Snapshot()), outcome)
    {
      var savedToken := store;
      if IsTruthy(savedToken) {
        token := savedToken;
        FetchUserProfile(savedToken.value, outcome);
      } else {
        isLoading := false;
      }
    }

    /** `login(credentials)`; returns the message of the error it raises, if any. */
    method Login(credentials: LoginRequest, outcome: LoginOutcome, profile: ProfileOutcome) returns (raised: Option<string>)
      modifies this
      ensures LoginResult(Snapshot(), raised) == AfterLogin(old(Snapshot()), outcome, profile)
    {
      isLoading := true;
      match outcome {
        case LoginOk(jwt) =>
          store := Some(jwt);
          cookie := Some(jwt);
          token := Some(jwt);
          FetchUserProfile(jwt, profile);
          raised := None;
        case LoginRejected(message) =>
          raised := Some(if IsTruthy(message) then message.value else LoginFailedMessage);
        case LoginThrew(message) =>
          raised := Some(message);
      }
      isLoading := false;
    }

    /** `logout()`. */
    method Logout()
      modifies this
      ensures Snapshot() == AfterLogout(old(Snapshot()))
    {
      store := None;
      cookie := None;
      token := None;
      user := None;
    }
  }
}
