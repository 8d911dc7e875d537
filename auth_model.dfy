/**
 * The session store of src/stores/auth.js as values: the state it holds, the
 * getters derived from it, and each of its operations as a transition from
 * one state to the next. Every network call is a parameter holding its
 * settled outcome, so each operation is a deterministic function.
 */
module AuthModel {
  import opened Wrappers
  import opened Api

  /** The profile returned by `GET /api/users/me`; `role` may be missing. */
  datatype Profile = Profile(id: int, email: string, role: Option<string>)

  /**
   * The store's state together with the persisted `auth_token` record.
   * `pendingTeardowns` counts the logouts that a failed profile fetch has
   * started without awaiting: each one clears the session when its DELETE
   * request settles, after the operation that started it has returned.
   */
  datatype Session = Session(
    user: Option<Profile>,
    token: Option<string>,
    warningShown: bool,
    pendingTeardowns: nat,
    stored: Option<string>)

  /** What `login` and `signup` resolve to: `{success}` or `{success, error}`. */
  datatype AuthResult = AuthResult(success: bool, error: Option<string>)

  /** The settled `POST /api/auth/login` or `/api/auth/signup`: the returned token or the rejection. */
  type TokenOutcome = Result<string, ApiError>

  /** The settled `GET /api/users/me`: `data.data.user` (possibly absent) or the rejection. */
  type ProfileOutcome = Result<Option<Profile>, ApiError>

  /** The settled `DELETE /api/auth/logout`. */
  type LogoutOutcome = Result<(), ApiError>

  const LoginFailed: string := "Login failed"
  const SignupFailed: string := "Signup failed"

  const Admin: string := "admin"
  const Doctor: string := "doctor"
  const Researcher: string := "researcher"
  const Auditor: string := "auditor"

  /** `!!token`: authenticated means a token that is present and non-empty. */
  predicate Authenticated(token: Option<string>)
  {
    Truthy(token)
  }

  /** `user?.role === role`. */
  predicate HasRole(user: Option<Profile>, role: string)
  {
    user.Some? && user.value.role == Some(role)
  }

  /**
   * The persisted record mirrors the token: the store counts as
   * authenticated exactly when the stored token is truthy, and then the two
   * are the same string. The request interceptor reads the stored record, so
   * this is what makes it send the store's token.
   */
  predicate WriteThrough(s: Session)
  {
    (Authenticated(s.token) <==> Truthy(s.stored)) &&
    (Authenticated(s.token) ==> s.stored == s.token)
  }

  /**
   * The state the store is created in: no user, no warning, and the token
   * read from storage, with an empty stored string read as no token.
   */
  function Initial(stored: Option<string>): (s: Session)
    ensures s.user.None? && !s.warningShown && s.pendingTeardowns == 0 && s.stored == stored
    ensures Authenticated(s.token) <==> Truthy(stored)
    ensures s.token.Some? ==> s.token == stored
    ensures !Truthy(stored) ==> s.token.None? && !Authenticated(s.token)
    ensures WriteThrough(s)
  {
    Session(None, if Truthy(stored) then stored else None, false, 0, stored)
  }

  /**
   * The message a failed login or signup reports:
   * `error.response?.data?.status?.message || fallback`.
   */
  function ErrorMessage(e: ApiError, fallback: string): (m: string)
    ensures fallback != "" ==> m != ""
    ensures e.response.Some? && Truthy(e.response.value.message) ==> m == e.response.value.message.value
    ensures !(e.response.Some? && Truthy(e.response.value.message)) ==> m == fallback
  {
    match e.response
    case Some(r) => if Truthy(r.message) then r.message.value else fallback
    case None => fallback
  }

  /** `fetchCurrentUser`: replace the user on success; on failure start a logout it does not wait for. */
  function FetchCurrentUser(s: Session, me: ProfileOutcome): (r: (Session, bool))
    ensures r.1 <==> me.Ok?
    ensures r.0.token == s.token && r.0.stored == s.stored && r.0.warningShown == s.warningShown
    ensures me.Ok? ==> r.0.user == me.value && r.0.pendingTeardowns == s.pendingTeardowns
    ensures me.Err? ==> r.0.user == s.user && r.0.pendingTeardowns == s.pendingTeardowns + 1
  {
    match me
    case Ok(u) => (s.(user := u), true)
    case Err(_) => (s.(pendingTeardowns := s.pendingTeardowns + 1), false)
  }

  /** The `finally` block of `logout`: user, token and the stored record are cleared. */
  function Teardown(s: Session): (r: Session)
    ensures r.user.None? && r.token.None? && r.stored.None?
    ensures !Authenticated(r.token) && WriteThrough(r)
    ensures r.warningShown == s.warningShown && r.pendingTeardowns == s.pendingTeardowns
  {
    s.(user := None, token := None, stored := None)
  }

  /**
   * The shared body of `login` and `signup`: on a resolved POST the token is
   * written to memory and storage and the profile fetch runs, whose result is
   * ignored; on a rejection the state is untouched and the error message
   * falls back to `fallback`.
   */
  function Authenticate(s: Session, post: TokenOutcome, me: ProfileOutcome, fallback: string): (r: (Session, AuthResult))
    ensures r.1.success <==> post.Ok?
    ensures post.Ok? ==> r.1 == AuthResult(true, None)
    ensures post.Ok? ==> r.0.token == Some(post.value) && r.0.stored == Some(post.value)
    ensures post.Ok? ==> r.0.warningShown == s.warningShown
    ensures post.Ok? && me.Ok? ==> r.0.user == me.value && r.0.pendingTeardowns == s.pendingTeardowns
    ensures post.Ok? && me.Err? ==> r.0.user == s.user && r.0.pendingTeardowns == s.pendingTeardowns + 1
    ensures post.Err? ==> r.0 == s && r.1 == AuthResult(false, Some(ErrorMessage(post.error, fallback)))
  {
    match post
    case Ok(t) => (FetchCurrentUser(s.(token := Some(t), stored := Some(t)), me).0, AuthResult(true, None))
    case Err(e) => (s, AuthResult(false, Some(ErrorMessage(e, fallback))))
  }

  /** `login(email, password)`; the credentials only shape the request, whose outcome is `post`. */
  function Login(s: Session, post: TokenOutcome, me: ProfileOutcome): (r: (Session, AuthResult))
    ensures post.Ok? ==> r.1 == AuthResult(true, None) && r.0.token == Some(post.value) && r.0.stored == Some(post.value)
    ensures post.Ok? ==> r.0.warningShown == s.warningShown
    ensures post.Ok? && me.Ok? ==> r.0.user == me.value && r.0.pendingTeardowns == s.pendingTeardowns
    ensures post.Ok? && me.Err? ==> r.0.user == s.user && r.0.pendingTeardowns == s.pendingTeardowns + 1
    ensures post.Err? ==> r.0 == s && !r.1.success && r.1.error.Some? && r.1.error.value != ""
    ensures post.Err? && post.error.response.Some? && Truthy(post.error.response.value.message) ==>
      r.1.error == post.error.response.value.message
    ensures post.Err? && !(post.error.response.Some? && Truthy(post.error.response.value.message)) ==>
      r.1.error == Some(LoginFailed)
  {
    Authenticate(s, post, me, LoginFailed)
  }

  /** `signup(userData)`; the same transition as `login` with its own fallback message. */
  function Signup(s: Session, post: TokenOutcome, me: ProfileOutcome): (r: (Session, AuthResult))
    ensures post.Ok? ==> r.1 == AuthResult(true, None) && r.0.token == Some(post.value) && r.0.stored == Some(post.value)
    ensures post.Ok? ==> r.0.warningShown == s.warningShown
    ensures post.Ok? && me.Ok? ==> r.0.user == me.value && r.0.pendingTeardowns == s.pendingTeardowns
    ensures post.Ok? && me.Err? ==> r.0.user == s.user && r.0.pendingTeardowns == s.pendingTeardowns + 1
    ensures post.Err? ==> r.0 == s && !r.1.success && r.1.error.Some? && r.1.error.value != ""
    ensures post.Err? && post.error.response.Some? && Truthy(post.error.response.value.message) ==>
      r.1.error == post.error.response.value.message
    ensures post.Err? && !(post.error.response.Some? && Truthy(post.error.response.value.message)) ==>
      r.1.error == Some(SignupFailed)
  {
    Authenticate(s, post, me, SignupFailed)
  }

  /** `logout()`, awaited: whatever the DELETE request did, the session is torn down. */
  function Logout(s: Session, delete: LogoutOutcome): (r: Session)
    ensures r.user.None? && r.token.None? && r.stored.None? && !Authenticated(r.token)
    ensures r.warningShown == s.warningShown && r.pendingTeardowns == s.pendingTeardowns
  {
    Teardown(s)
  }

  /**
   * One logout started by a failed profile fetch completes: its `finally`
   * block clears the session. With none pending nothing happens.
   */
  function CompletePendingLogout(s: Session): (r: Session)
    ensures s.pendingTeardowns > 0 ==>
      r.user.None? && r.token.None? && r.stored.None? && r.pendingTeardowns == s.pendingTeardowns - 1
    ensures s.pendingTeardowns == 0 ==> r == s
    ensures r.warningShown == s.warningShown
  {
    if s.pendingTeardowns == 0 then s else Teardown(s).(pendingTeardowns := s.pendingTeardowns - 1)
  }

  /** `showSessionWarning()`: the flag is raised and nothing else changes. */
  function ShowSessionWarning(s: Session): (r: Session)
    ensures r.warningShown
    ensures r.(warningShown := s.warningShown) == s
  {
    s.(warningShown := true)
  }

  /** `hideSessionWarning()`: the flag is lowered and nothing else changes. */
  function HideSessionWarning(s: Session): (r: Session)
    ensures !r.warningShown
    ensures r.(warningShown := s.warningShown) == s
  {
    s.(warningShown := false)
  }

  /** The role getters hold only for the role the user actually has. */
  lemma RolesExclusive(user: Option<Profile>)
    ensures user.None? ==> !HasRole(user, Admin) && !HasRole(user, Doctor) && !HasRole(user, Researcher) && !HasRole(user, Auditor)
    ensures HasRole(user, Admin) ==> !HasRole(user, Doctor) && !HasRole(user, Researcher) && !HasRole(user, Auditor)
    ensures HasRole(user, Doctor) ==> !HasRole(user, Researcher) && !HasRole(user, Auditor)
    ensures HasRole(user, Researcher) ==> !HasRole(user, Auditor)
  {
  }

  /** Logging out twice is logging out once, and the toggles are idempotent. */
  lemma TogglesAndLogoutIdempotent(s: Session, d1: LogoutOutcome, d2: LogoutOutcome)
    ensures Logout(Logout(s, d1), d2) == Logout(s, d1)
    ensures ShowSessionWarning(ShowSessionWarning(s)) == ShowSessionWarning(s)
    ensures HideSessionWarning(HideSessionWarning(s)) == HideSessionWarning(s)
  {
  }

  /** Everything the store can do, as one event each. */
  datatype Event =
    | LoginEvent(post: TokenOutcome, me: ProfileOutcome)
    | SignupEvent(post: TokenOutcome, me: ProfileOutcome)
    | LogoutEvent(delete: LogoutOutcome)
    | FetchEvent(me: ProfileOutcome)
    | TeardownSettles
    | ShowWarning
    | HideWarning

  /** The store state after one operation, with its outcomes as given by the event. */
  function Step(s: Session, e: Event): Session
  {
    match e
    case LoginEvent(post, me) => Login(s, post, me).0
    case SignupEvent(post, me) => Signup(s, post, me).0
    case LogoutEvent(delete) => Logout(s, delete)
    case FetchEvent(me) => FetchCurrentUser(s, me).0
    case TeardownSettles => CompletePendingLogout(s)
    case ShowWarning => ShowSessionWarning(s)
    case HideWarning => HideSessionWarning(s)
  }

  /** The state reached from `s` by the events `es`, in order. */
  function Run(s: Session, es: seq<Event>): Session
    decreases |es|
  {
    if es == [] then s else Run(Step(s, es[0]), es[1..])
  }

  /** Each store operation, whatever its network outcomes, keeps write-through. */
  lemma StepKeepsWriteThrough(s: Session, e: Event)
    requires WriteThrough(s)
    ensures WriteThrough(Step(s, e))
  {
  }

  /**
   * Write-through holds in every state the store can reach from its initial
   * state: no sequence of operations lets the in-memory token and the
   * persisted record disagree.
   */
  lemma {:induction false} RunKeepsWriteThrough(s: Session, es: seq<Event>)
    requires WriteThrough(s)
    ensures WriteThrough(Run(s, es))
    decreases |es|
  {
    if es != [] {
      StepKeepsWriteThrough(s, es[0]);
      RunKeepsWriteThrough(Step(s, es[0]), es[1..]);
    }
  }

  lemma ReachableWriteThrough(stored: Option<string>, es: seq<Event>)
    ensures WriteThrough(Run(Initial(stored), es))
  {
    RunKeepsWriteThrough(Initial(stored), es);
  }

  /**
   * A successful login whose profile fetch fails returns success with the
   * new token in place; the session is torn down only when the logout that
   * the fetch started completes.
   */
  lemma LoginWithFailedFetch(s: Session, t: string, e: ApiError)
    requires s.pendingTeardowns == 0 && t != ""
    ensures var (s1, res) := Login(s, Ok(t), Err(e));
      && res.success && Authenticated(s1.token) && s1.pendingTeardowns == 1
      && var s2 := CompletePendingLogout(s1);
         !Authenticated(s2.token) && s2.stored.None? && s2.user.None? && s2.pendingTeardowns == 0
  {
  }

  /** Every teardown started is eventually performed: the session is cleared once all have settled. */
  lemma {:induction false} AllTeardownsSettle(s: Session, n: nat)
    requires n == s.pendingTeardowns && n > 0
    ensures var r := Run(s, seq(n, _ => TeardownSettles));
      r.pendingTeardowns == 0 && r.token.None? && r.user.None? && r.stored.None?
    decreases n
  {
    var s1 := CompletePendingLogout(s);
    assert seq(n, _ => TeardownSettles)[1..] == seq(n - 1, _ => TeardownSettles);
    if n > 1 {
      AllTeardownsSettle(s1, n - 1);
    }
  }

  /**
   * In a write-through state the request interceptor sends exactly the
   * store's token: a bearer header carrying it when the store is
   * authenticated, and the headers untouched otherwise.
   */
  lemma RequestCarriesStoreToken(s: Session, headers: map<string, string>)
    requires WriteThrough(s)
    ensures Authenticated(s.token) ==> Authorize(headers, s.stored)[AuthorizationHeader] == "Bearer " + s.token.value
    ensures !Authenticated(s.token) ==> Authorize(headers, s.stored) == headers
  {
  }
}
