/** The authentication provider: who is signed in (`user`), whether a check or sign-in is
    under way (`loading`), the last sign-in error (`error`) and the token in local storage.
    The transitions are specified as functions on `State`; the provider class performs them
    step by step on its fields and is proved to agree with them. */
module Session {
  import opened Js
  import opened Browser
  import opened Config
  import opened Api

  datatype State = State(user: Value, loading: bool, error: Value, token: Option<string>)

  /** The state after a sign-in attempt and the boolean the attempt resolves to. */
  datatype Attempt = Attempt(state: State, ok: bool)

  const LoginFailed := "Login failed"
  const LoginCrashed := "An error occurred during login"
  const RegistrationFailed := "Registration failed"
  const RegistrationCrashed := "An error occurred during registration"

  /** The provider as it mounts, over whatever token storage already holds. */
  function Initial(token: Option<string>): (s: State)
    ensures s.user == Null && s.loading && s.error == Null && s.token == token
  {
    State(Null, true, Null, token)
  }

  /** The UI shows a user exactly when the user value is truthy (`isAuthenticated: !!user`). */
  predicate Authenticated(s: State) {
    Truthy(s.user)
  }

  /** The agreement one would expect of the provider: a usable token is stored exactly when a user is shown. */
  predicate TokenMatchesUser(s: State) {
    Authenticated(s) <==> Present(s.token)
  }

  /** `response.success && response.data` holds of the profile response without throwing. */
  predicate ProfileAccepted(profile: Value) {
    Readable(profile) && Truthy(Field(profile, "success")) && Truthy(Field(profile, "data"))
  }

  /** `checkAuth` at mount, with `profile` what `api.auth.getProfile()` resolves to when it is called.
      Without a token nothing is asked and nothing changes; with one, an accepted profile becomes the
      user, and anything else (including a profile whose fields cannot be read) removes the token. */
  function CheckAuthStep(s: State, profile: Value): (r: State)
    ensures !r.loading && r.error == s.error
    ensures !Present(s.token) ==> r == s.(loading := false)
    ensures Present(s.token) && ProfileAccepted(profile) ==> r.user == Field(profile, "data") && r.token == s.token
    ensures Present(s.token) && !ProfileAccepted(profile) ==> r.user == s.user && r.token == None
  {
    if !Present(s.token) then s.(loading := false)
    else match GetField(profile, "success")
      case Err(_) => s.(token := None, loading := false)
      case Ok(success) =>
        if Truthy(success) && Truthy(Field(profile, "data"))
        then s.(user := Field(profile, "data"), loading := false)
        else s.(token := None, loading := false)
  }

  /** `login` and `register`, which share their shape: the error is cleared, a response with a truthy
      `success` and `token` stores the token (as `String(token)`) and its `user`, any other response sets
      the error to its `message` or `failed`, and a response whose fields cannot be read sets the
      thrown TypeError's message (or `crashed`). Loading is off at the end. */
  function SignInStep(s: State, response: Value, failed: string, crashed: string): (a: Attempt)
    requires failed != "" && crashed != ""
    ensures !a.state.loading
    ensures a.ok <==> Readable(response) && Truthy(Field(response, "success")) && Truthy(Field(response, "token"))
    ensures a.ok ==> a.state == s.(user := Field(response, "user"), loading := false, error := Null,
                                   token := Some(ToJsString(Field(response, "token"))))
    ensures !a.ok ==> a.state.user == s.user && a.state.token == s.token && Truthy(a.state.error)
    ensures !a.ok && Readable(response) ==> a.state.error == Or(Field(response, "message"), Str(failed))
    ensures !Readable(response) ==> a.state.error == Str(PropertyErrorMessage(response, "success"))
  {
    var cleared := s.(loading := true, error := Null);
    match GetField(response, "success")
    case Err(message) =>
      Attempt(cleared.(error := Or(Str(message), Str(crashed)), loading := false), false)
    case Ok(success) =>
      if Truthy(success) && Truthy(Field(response, "token")) then
        Attempt(cleared.(token := Some(ToJsString(Field(response, "token"))), user := Field(response, "user"),
                         loading := false), true)
      else
        Attempt(cleared.(error := Or(Field(response, "message"), Str(failed)), loading := false), false)
  }

  /** `login(email, password)`, given what `api.auth.login` resolves to. */
  function LoginStep(s: State, response: Value): (a: Attempt)
    ensures a.ok <==> Readable(response) && Truthy(Field(response, "success")) && Truthy(Field(response, "token"))
    ensures a.ok ==> a.state.token == Some(ToJsString(Field(response, "token"))) && a.state.user == Field(response, "user")
    ensures !a.ok ==> a.state.token == s.token && a.state.user == s.user
    ensures !a.ok && Readable(response) && !Truthy(Field(response, "message")) ==> a.state.error == Str(LoginFailed)
    ensures !a.state.loading
  {
    SignInStep(s, response, LoginFailed, LoginCrashed)
  }

  /** `register(userData)`, given what `api.auth.register` resolves to. */
  function RegisterStep(s: State, response: Value): (a: Attempt)
    ensures a.ok <==> Readable(response) && Truthy(Field(response, "success")) && Truthy(Field(response, "token"))
    ensures a.ok ==> a.state.token == Some(ToJsString(Field(response, "token"))) && a.state.user == Field(response, "user")
    ensures !a.ok ==> a.state.token == s.token && a.state.user == s.user
    ensures !a.ok && Readable(response) && !Truthy(Field(response, "message")) ==> a.state.error == Str(RegistrationFailed)
    ensures !a.state.loading
  {
    SignInStep(s, response, RegistrationFailed, RegistrationCrashed)
  }

  /** `logout`: the token and the user go, nothing else changes. */
  function LogoutStep(s: State): (r: State)
    ensures r.token == None && r.user == Null
    ensures r.loading == s.loading && r.error == s.error
  {
    s.(user := Null, token := None)
  }

  /** The provider component's state, with the token kept in local storage. */
  class AuthProvider {
    var user: Value
    var loading: bool
    var error: Value
    const storage: LocalStorage

    function Snapshot(): State
      reads this, storage
    {
      State(user, loading, error, storage.token)
    }

    constructor (storage: LocalStorage)
      ensures this.storage == storage && Snapshot() == Initial(storage.token)
    {
      this.storage := storage;
      user := Null;
      loading := true;
      error := Null;
    }

    /** `isAuthenticated` */
    function IsAuthenticated(): (b: bool)
      reads this, storage
      ensures b <==> Authenticated(Snapshot())
    {
      Truthy(user)
    }

    /** The mount-time `checkAuth`, given what the profile request resolves to. */
    method CheckAuth(profile: Value)
      modifies this, storage
      ensures Snapshot() == CheckAuthStep(old(Snapshot()), profile)
      ensures storage.pendingSessions == old(storage.pendingSessions)
    {
      var token := storage.token;
      if !Present(token) {
        loading := false;
        return;
      }
      var success := GetField(profile, "success");
      if success.Err? {
        storage.token := None;
      } else if Truthy(success.value) && Truthy(Field(profile, "data")) {
        user := Field(profile, "data");
      } else {
        storage.token := None;
      }
      loading := false;
    }

    method SignIn(response: Value, failed: string, crashed: string) returns (ok: bool)
      requires failed != "" && crashed != ""
      modifies this, storage
      ensures Attempt(Snapshot(), ok) == SignInStep(old(Snapshot()), response, failed, crashed)
      ensures storage.pendingSessions == old(storage.pendingSessions)
    {
      loading := true;
      error := Null;
      var success := GetField(response, "success");
      if success.Err? {
        error := Or(Str(success.error), Str(crashed));
        ok := false;
      } else {
        var token := Field(response, "token");
        if Truthy(success.value) && Truthy(token) {
          storage.token := Some(ToJsString(token));
          user := Field(response, "user");
          ok := true;
        } else {
          error := Or(Field(response, "message"), Str(failed));
          ok := false;
        }
      }
      loading := false;
    }

    /** `login`, given what `api.auth.login(email, password)` resolves to. */
    method Login(response: Value) returns (ok: bool)
      modifies this, storage
      ensures Attempt(Snapshot(), ok) == LoginStep(old(Snapshot()), response)
      ensures storage.pendingSessions == old(storage.pendingSessions)
    {
      ok := SignIn(response, LoginFailed, LoginCrashed);
    }

    /** `register`, given what `api.auth.register(userData)` resolves to. */
    method Register(response: Value) returns (ok: bool)
      modifies this, storage
      ensures Attempt(Snapshot(), ok) == RegisterStep(old(Snapshot()), response)
      ensures storage.pendingSessions == old(storage.pendingSessions)
    {
      ok := SignIn(response, RegistrationFailed, RegistrationCrashed);
    }

    method Logout()
      modifies this, storage
      ensures Snapshot() == LogoutStep(old(Snapshot()))
      ensures storage.pendingSessions == old(storage.pendingSessions)
    {
      storage.token := None;
      user := Null;
    }
  }

  /** After the mount-time check the provider has settled, and a token is kept exactly when a user is shown. */
  lemma MountSettles(token: Option<string>, profile: Value)
    ensures var r := CheckAuthStep(Initial(token), profile);
      !r.loading && r.error == Null && TokenMatchesUser(r)
  {
  }

  /** Logging out, and a failed sign-in, keep the token and the user in agreement; so does a
      successful one whose response carries a string `token` and a truthy `user`. */
  lemma SignInKeepsAgreement(s: State, response: Value)
    requires TokenMatchesUser(s)
    requires Readable(response) && Truthy(Field(response, "success")) && Truthy(Field(response, "token")) ==>
      Field(response, "token").Str? && Truthy(Field(response, "user"))
    ensures TokenMatchesUser(LoginStep(s, response).state)
    ensures TokenMatchesUser(RegisterStep(s, response).state)
    ensures TokenMatchesUser(LogoutStep(s))
  {
  }

  /** A sign-in response with `success` and `token` but no `user` resolves to true and stores the token,
      yet the provider shows nobody: the agreement between token and user does not survive it. */
  lemma SignInWithoutUserSplitsTokenAndUser()
    ensures var a := LoginStep(Initial(None), Obj(map["success" := Bool(true), "token" := Str("t")]));
      a.ok && a.state.token == Some("t") && !Authenticated(a.state) && !TokenMatchesUser(a.state)
  {
  }

  /** A failed login leaves nothing behind that a retry would see. */
  lemma FailedAttemptIsForgotten(s: State, first: Value, second: Value)
    requires !LoginStep(s, first).ok
    ensures LoginStep(LoginStep(s, first).state, second) == LoginStep(s, second)
  {
  }

  /** Nor does a failed registration. */
  lemma FailedRegistrationIsForgotten(s: State, first: Value, second: Value)
    requires !RegisterStep(s, first).ok
    ensures RegisterStep(RegisterStep(s, first).state, second) == RegisterStep(s, second)
  {
  }

  /** Any failed profile request, online or offline, removes the stored token at mount:
      online the fallback envelope has `success: false`, offline the sentinel has no `success` at all. */
  lemma FailedProfileRemovesToken(cfg: Config, s: State, server: Request -> FetchOutcome, online: bool)
    requires Present(s.token)
    requires !Succeeds(server(Send(cfg, ProfileCall, s.token)))
    ensures CheckAuthStep(s, AuthGetProfile(cfg, s.token, server, online)).token == None
  {
    var profile := AuthGetProfile(cfg, s.token, server, online);
    assert profile == ProfileFallback || profile == OfflineSentinel;
  }

  /** A failed login request stores nothing and shows the wrapper's message online, or the provider's
      own default offline (the sentinel carries no `message`). */
  lemma FailedLoginRequestStoresNothing(cfg: Config, s: State, email: string, password: string,
                                        server: Request -> FetchOutcome, online: bool)
    requires !Succeeds(server(Send(cfg, LoginCall(email, password), s.token)))
    ensures var a := LoginStep(s, AuthLogin(cfg, email, password, s.token, server, online));
      && !a.ok && a.state.token == s.token && a.state.user == s.user
      && a.state.error == Str(if online then "Login failed. Please try again." else LoginFailed)
  {
    var response := AuthLogin(cfg, email, password, s.token, server, online);
    assert response == (if online then LoginFallback else OfflineSentinel);
  }
}
