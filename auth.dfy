/**
 * The authentication provider: the `{user, isLoading, isAuthenticated}`
 * state, the `client_token` cookie that holds the session token, and the
 * transitions run by start-up, refresh, login and logout. Server replies
 * are parameters; the cookie is a field; router navigations are a ghost log.
 */
module Auth {
  import opened Wrappers

  const LoginPath: string := "/login"

  datatype User = User(id: int, name: string, email: string)

  /** The `{ success, data }` body of the "who am I" reply. */
  datatype WhoAmIBody = WhoAmIBody(success: bool, data: Option<User>)

  /**
   * How `getAuthUser()` ends: the request fails, with the HTTP status of the
   * error response when there is one, or it resolves with a body that may
   * be absent. A failure either throws or, as the client does not throw on
   * errors, resolves without data; `refreshUser` treats both alike.
   */
  datatype WhoAmIOutcome = WhoAmIFailed(status: Option<int>) | WhoAmIReplied(body: Option<WhoAmIBody>)
  {
    /** The status the response interceptor sees: that of a failed request, if any. */
    function ErrorStatus(): Option<int> {
      if WhoAmIFailed? then status else None
    }
  }

  datatype LoginData = LoginData(token: Option<string>, user: Option<User>)

  /** The `{ success, message, data }` body of the login reply; every part may be absent. */
  datatype LoginBody = LoginBody(success: Option<bool>, message: Option<string>, data: Option<LoginData>)

  /**
   * How the login request ends: it fails (with the HTTP status of the error
   * response when there is one), or it resolves with a body that may be absent.
   */
  datatype LoginOutcome = LoginFailed(status: Option<int>) | LoginReplied(body: Option<LoginBody>)
  {
    function ErrorStatus(): Option<int> {
      if LoginFailed? then status else None
    }
  }

  /** How the logout request ends; its result is ignored except by the response interceptor. */
  datatype LogoutOutcome = LogoutSucceeded | LogoutFailed(status: Option<int>)
  {
    function ErrorStatus(): Option<int> {
      if LogoutFailed? then status else None
    }
  }

  /**
   * The navigations the response interceptor adds for a failed request:
   * one visit to the login page on a 401, none otherwise.
   */
  function InterceptorRedirects(status: Option<int>): (v: seq<string>)
    ensures |v| <= 1
    ensures v != [] <==> status == Some(401)
    ensures forall p :: p in v ==> p == LoginPath
  {
    if status == Some(401) then [LoginPath] else []
  }

  /** The error `login` re-raises to its caller. */
  datatype LoginError = RequestFailed | Rejected(message: string) | InvalidResponseFormat

  /** `!!Cookies.get(AUTH_COOKIE_NAME)`: a cookie is there and is not empty. */
  predicate HasToken(cookie: Option<string>) {
    cookie.Some? && cookie.value != ""
  }

  /** The refresh succeeds when the reply says `success` and carries a user. */
  predicate RefreshSucceeds(outcome: WhoAmIOutcome) {
    outcome.WhoAmIReplied? && outcome.body.Some? && outcome.body.value.success && outcome.body.value.data.Some?
  }

  /** The reply is marked `success === false`. */
  predicate IsRejection(outcome: LoginOutcome) {
    outcome.LoginReplied? && outcome.body.Some? && outcome.body.value.success == Some(false)
  }

  /** `response?.data?.token && response?.data?.user`: a non-empty token and a user. */
  predicate CarriesSession(outcome: LoginOutcome) {
    && outcome.LoginReplied? && outcome.body.Some? && outcome.body.value.data.Some?
    && outcome.body.value.data.value.token.Some? && outcome.body.value.data.value.token.value != ""
    && outcome.body.value.data.value.user.Some?
  }

  /**
   * The verdict on a login reply: the token and user to keep, or the error
   * to raise. A reply with `success === false` is rejected with its message,
   * or "Login failed" when it has none; a reply without a non-empty token
   * and a user is rejected as malformed.
   */
  function LoginVerdict(outcome: LoginOutcome): (r: Result<(string, User), LoginError>)
    ensures r.Success? ==> r.value.0 != ""
    ensures r.Success? ==> outcome.LoginReplied? && outcome.body.Some? && outcome.body.value.success != Some(false)
    ensures r.Success? ==> outcome.body.value.data == Some(LoginData(Some(r.value.0), Some(r.value.1)))
    ensures outcome.LoginFailed? ==> r == Failure(RequestFailed)
    ensures IsRejection(outcome) ==> r.Failure? && r.error.Rejected? && r.error.message != ""
    ensures IsRejection(outcome) ==>
      r.error.message == if outcome.body.value.message.GetOr("") != "" then outcome.body.value.message.value else "Login failed"
    ensures outcome.LoginReplied? && !IsRejection(outcome) ==> (r.Success? <==> CarriesSession(outcome))
    ensures outcome.LoginReplied? && !IsRejection(outcome) && !CarriesSession(outcome) ==> r == Failure(InvalidResponseFormat)
  {
    match outcome
    case LoginFailed(_) => Failure(RequestFailed)
    case LoginReplied(body) =>
      if body.Some? && body.value.success == Some(false) then
        var message := body.value.message.GetOr("");
        Failure(Rejected(if message != "" then message else "Login failed"))
      else
        var data := if body.Some? then body.value.data else None;
        var token := if data.Some? then data.value.token else None;
        var user := if data.Some? then data.value.user else None;
        if token.Some? && token.value != "" && user.Some? then Success((token.value, user.value))
        else Failure(InvalidResponseFormat)
  }

  /**
   * The request interceptor's `Authorization` header: `Bearer ` and the
   * token, exactly when a non-empty token cookie is present.
   */
  function AuthorizationHeader(cookie: Option<string>): (h: Option<string>)
    ensures h.Some? <==> HasToken(cookie)
    ensures h.Some? ==> |h.value| > 7 && h.value[..7] == "Bearer " && h.value[7..] == cookie.value
  {
    if HasToken(cookie) then Some("Bearer " + cookie.value) else None
  }

  class AuthProvider {
    var user: Option<User>
    var isLoading: bool
    var isAuthenticated: bool
    /** The `client_token` cookie. */
    var cookie: Option<string>
    /** Where the router or the browser was sent, in order. */
    ghost var navigations: seq<string>

    /** The flag and the user always agree. */
    ghost predicate Valid()
      reads this
    {
      isAuthenticated <==> user.Some?
    }

    /** The state before start-up has run: no user, still loading. */
    constructor (cookie: Option<string>)
      ensures Valid()
      ensures user == None && isLoading && !isAuthenticated
      ensures this.cookie == cookie && navigations == []
    {
      user := None;
      isLoading := true;
      isAuthenticated := false;
      this.cookie := cookie;
      navigations := [];
    }

    /** `useProtectedRoute` sends the visitor to the login page when this holds. */
    function ShouldRedirectToLogin(): (b: bool)
      reads this
      ensures Valid() ==> (b <==> !isLoading && user.None?)
    {
      !isLoading && !isAuthenticated
    }

    /** Start-up: refresh when a token cookie is present, otherwise only stop loading. */
    method InitializeAuth(outcome: WhoAmIOutcome)
      requires Valid()
      modifies this
      ensures Valid() && !isLoading
      ensures !HasToken(old(cookie)) ==> user == old(user) && cookie == old(cookie) && navigations == old(navigations)
      ensures HasToken(old(cookie)) ==> navigations == old(navigations) + InterceptorRedirects(outcome.ErrorStatus())
      ensures HasToken(old(cookie)) && RefreshSucceeds(outcome) ==>
        user == outcome.body.value.data && cookie == old(cookie)
      ensures HasToken(old(cookie)) && !RefreshSucceeds(outcome) ==> user == None && cookie == None
    {
      if HasToken(cookie) {
        RefreshUser(outcome);
      } else {
        isLoading := false;
      }
    }

    /**
     * Refresh: ends authenticated with the user of the reply exactly when
     * the reply says `success` and carries a user; on any other reply, and
     * when the request fails, the cookie is removed and no one is logged in.
     * A 401 failure first passes through the response interceptor.
     */
    method RefreshUser(outcome: WhoAmIOutcome)
      modifies this
      ensures Valid() && !isLoading
      ensures navigations == old(navigations) + InterceptorRedirects(outcome.ErrorStatus())
      ensures isAuthenticated <==> RefreshSucceeds(outcome)
      ensures RefreshSucceeds(outcome) ==> user == outcome.body.value.data && cookie == old(cookie)
      ensures !RefreshSucceeds(outcome) ==> user == None && cookie == None
    {
      isLoading := true;
      OnResponseError(outcome.ErrorStatus());
      if RefreshSucceeds(outcome) {
        user, isLoading, isAuthenticated := outcome.body.value.data, false, true;
      } else {
        cookie := None;
        user, isLoading, isAuthenticated := None, false, false;
      }
    }

    /**
     * Login: on an accepted reply the cookie holds its token and its user is
     * logged in; on every failure the cookie is removed, no one is logged in
     * and the error is raised again. A 401 failure first passes through the
     * response interceptor.
     */
    method Login(email: string, password: string, outcome: LoginOutcome) returns (error: Option<LoginError>)
      modifies this
      ensures Valid() && !isLoading
      ensures navigations == old(navigations) + InterceptorRedirects(outcome.ErrorStatus())
      ensures LoginVerdict(outcome).Success? ==>
        error == None && cookie == Some(LoginVerdict(outcome).value.0)
        && user == Some(LoginVerdict(outcome).value.1) && isAuthenticated
      ensures LoginVerdict(outcome).Failure? ==>
        error == Some(LoginVerdict(outcome).error) && cookie == None && user == None && !isAuthenticated
    {
      OnResponseError(outcome.ErrorStatus());
      var verdict := LoginVerdict(outcome);
      match verdict
      case Success((token, u)) =>
        cookie := Some(token);
        user, isLoading, isAuthenticated := Some(u), false, true;
        error := None;
      case Failure(e) =>
        cookie := None;
        user, isLoading, isAuthenticated := None, false, false;
        error := Some(e);
    }

    /**
     * Logout ends logged out on the login page whether or not the server
     * call fails; a 401 failure adds the response interceptor's visit first.
     */
    method Logout(outcome: LogoutOutcome)
      modifies this
      ensures Valid() && !isLoading && user == None && !isAuthenticated && cookie == None
      ensures navigations == old(navigations) + InterceptorRedirects(outcome.ErrorStatus()) + [LoginPath]
      ensures ShouldRedirectToLogin()
    {
      isLoading := true;
      OnResponseError(outcome.ErrorStatus());
      // Past the interceptor, success and failure both finish the logout.
      FinishLogout();
    }

    method FinishLogout()
      modifies this
      ensures Valid() && !isLoading && user == None && !isAuthenticated && cookie == None
      ensures navigations == old(navigations) + [LoginPath]
    {
      cookie := None;
      user, isLoading, isAuthenticated := None, false, false;
      navigations := navigations + [LoginPath];
    }

    /** The response interceptor: a 401 removes the cookie and goes to the login page. */
    method OnResponseError(status: Option<int>)
      modifies this`cookie, this`navigations
      ensures status == Some(401) ==> cookie == None && navigations == old(navigations) + [LoginPath]
      ensures status != Some(401) ==> cookie == old(cookie) && navigations == old(navigations)
      ensures navigations == old(navigations) + InterceptorRedirects(status)
    {
      if status == Some(401) {
        cookie := None;
        navigations := navigations + [LoginPath];
      }
    }
  }
}
