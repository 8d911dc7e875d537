/**
 * The session store of src/stores/auth.js as the mutable object it is: the
 * refs `user`, `token` and `sessionWarningShown` are fields, and
 * `localStorage` is the shared `Browser` object. Each method changes those
 * fields step by step, as the source does, and is proved to perform the
 * matching transition of `AuthModel` on the store's `State()`.
 */
module AuthStore {
  import opened Wrappers
  import opened Api
  import opened AuthModel

  class Store {
    const browser: Browser
    var user: Option<Profile>
    var token: Option<string>
    var sessionWarningShown: bool
    /** Logouts started by a failed profile fetch whose `finally` block has not yet run. */
    var pendingTeardowns: nat

    /** The store's state with the persisted `auth_token` record it mirrors. */
    function State(): Session
      reads this, browser
    {
      Session(user, token, sessionWarningShown, pendingTeardowns, GetItem(browser.localStorage, TokenKey))
    }

    /** Storage keys other than `auth_token` are not the store's to change. */
    twostate predicate OtherKeysUnchanged()
      reads this, browser
    {
      browser.localStorage - {TokenKey} == old(browser.localStorage) - {TokenKey}
    }

    /** `useAuthStore()` on first use: the token is read back from storage (`getItem(...) || null`). */
    constructor (browser: Browser)
      ensures this.browser == browser
      ensures State() == Initial(GetItem(browser.localStorage, TokenKey))
    {
      this.browser := browser;
      user := None;
      var stored := GetItem(browser.localStorage, TokenKey);
      token := if Truthy(stored) then stored else None;
      sessionWarningShown := false;
      pendingTeardowns := 0;
    }

    function IsAuthenticated(): (b: bool)
      reads this
      ensures b <==> token.Some? && token.value != ""
    {
      Authenticated(token)
    }

    function IsAdmin(): (b: bool)
      reads this
      ensures b <==> user.Some? && user.value.role == Some("admin")
    {
      HasRole(user, Admin)
    }

    function IsDoctor(): (b: bool)
      reads this
      ensures b <==> user.Some? && user.value.role == Some("doctor")
    {
      HasRole(user, Doctor)
    }

    function IsResearcher(): (b: bool)
      reads this
      ensures b <==> user.Some? && user.value.role == Some("researcher")
    {
      HasRole(user, Researcher)
    }

    function IsAuditor(): (b: bool)
      reads this
      ensures b <==> user.Some? && user.value.role == Some("auditor")
    {
      HasRole(user, Auditor)
    }

    method FetchCurrentUser(me: ProfileOutcome) returns (ok: bool)
      modifies this
      ensures (State(), ok) == AuthModel.FetchCurrentUser(old(State()), me)
    {
      match me
      case Ok(u) =>
        user := u;
        ok := true;
      case Err(_) =>
        // logout() is called without await: its teardown runs later
        pendingTeardowns := pendingTeardowns + 1;
        ok := false;
    }

    /** The `finally` block of `logout`. */
    method ClearSession()
      modifies this, browser`localStorage
      ensures State() == Teardown(old(State()))
      ensures OtherKeysUnchanged()
    {
      user := None;
      token := None;
      browser.localStorage := browser.localStorage - {TokenKey};
    }

    /** The body shared by `login` and `signup`. */
    method Authenticate(post: TokenOutcome, me: ProfileOutcome, fallback: string) returns (result: AuthResult)
      modifies this, browser`localStorage
      ensures (State(), result) == AuthModel.Authenticate(old(State()), post, me, fallback)
      ensures OtherKeysUnchanged()
    {
      match post
      case Ok(t) =>
        token := Some(t);
        browser.localStorage := browser.localStorage[TokenKey := t];
        var _ := FetchCurrentUser(me);
        result := AuthResult(true, None);
      case Err(e) =>
        result := AuthResult(false, Some(ErrorMessage(e, fallback)));
    }

    method Login(post: TokenOutcome, me: ProfileOutcome) returns (result: AuthResult)
      modifies this, browser`localStorage
      ensures (State(), result) == AuthModel.Login(old(State()), post, me)
      ensures OtherKeysUnchanged()
    {
      result := Authenticate(post, me, LoginFailed);
    }

    method Signup(post: TokenOutcome, me: ProfileOutcome) returns (result: AuthResult)
      modifies this, browser`localStorage
      ensures (State(), result) == AuthModel.Signup(old(State()), post, me)
      ensures OtherKeysUnchanged()
    {
      result := Authenticate(post, me, SignupFailed);
    }

    /** `await logout()`: the DELETE's outcome is only logged; the teardown always runs. */
    method Logout(delete: LogoutOutcome)
      modifies this, browser`localStorage
      ensures State() == AuthModel.Logout(old(State()), delete)
      ensures OtherKeysUnchanged()
    {
      ClearSession();
    }

    /** The deferred teardown of a logout started by a failed profile fetch runs. */
    method CompletePendingLogout()
      modifies this, browser`localStorage
      ensures State() == AuthModel.CompletePendingLogout(old(State()))
      ensures OtherKeysUnchanged()
    {
      if pendingTeardowns > 0 {
        ClearSession();
        pendingTeardowns := pendingTeardowns - 1;
      }
    }

    method ShowSessionWarning()
      modifies this`sessionWarningShown
      ensures State() == AuthModel.ShowSessionWarning(old(State()))
    {
      sessionWarningShown := true;
    }

    method HideSessionWarning()
      modifies this`sessionWarningShown
      ensures State() == AuthModel.HideSessionWarning(old(State()))
    {
      sessionWarningShown := false;
    }
  }
}
