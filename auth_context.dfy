/** The authentication context (client/src/context/AuthContext.tsx): the `user` and
    `loading` state, `login`, `verifyToken`, the logout on 401, the on-load check guarded
    by `mounted`, and the derived `isAuthenticated`. HTTP requests are replaced by their
    outcomes, given as parameters. */
module AuthContext {
  import opened Js

  /** The session user as the API returns it. */
  datatype User = User(id: string, name: string, email: string, role: string)

  /** The `data` of an error response: a bare string, an object with optional `error`,
      `message` and `detail` (an absent field is written ""), or nothing at all. */
  datatype ResponseData = TextData(text: string) | ObjectData(error: string, message: string, detail: string) | NoData

  datatype HttpResponse = HttpResponse(status: int, data: ResponseData)

  /** A rejected request: an axios error, with or without a response, or any other
      thrown value. */
  datatype RequestError =
    | AxiosError(message: string, response: Option<HttpResponse>)
    | OtherError

  datatype LoginOutcome =
    | LoginSucceeded(user: User)
      /** A 2xx reply whose body has no `user` field, such as `server/index.js` sends. */
    | LoginAnsweredWithoutUser
    | LoginFailed(error: RequestError)

  /** What `GET /api/verify-token` gave: a body, or a rejection. */
  datatype VerifyOutcome = VerifyResponded(valid: bool, user: Option<User>) | VerifyFailed(error: RequestError)

  /** The three roles of the `User` type. */
  const Roles: set<string> := {"PATIENT", "DOCTOR", "ADMIN"}

  const DefaultLoginError: string := "Login failed. Please check your credentials."
  const ProviderMissing: string := "useAuth must be used within an AuthProvider"

  /** `isAuthenticated: !!user` */
  predicate IsAuthenticated(user: Option<User>)
    ensures IsAuthenticated(user) <==> user != None
  {
    user.Some?
  }

  /** The route a successful login goes to. */
  function RoleDashboard(role: string): string {
    "/dashboard/" + Lower(role)
  }

  /** The message `login` throws with when the request fails. */
  function LoginErrorMessage(error: RequestError): (msg: string)
    ensures error.OtherError? ==> msg == DefaultLoginError
    ensures error.AxiosError? && error.response.None? ==>
              msg == (if error.message != "" then error.message else "Network error")
    ensures error.AxiosError? && error.response.Some? && error.response.value.data.TextData? ==>
              msg == error.response.value.data.text
    ensures error.AxiosError? && error.response.Some? && error.response.value.data.NoData? ==>
              msg == DefaultLoginError
    ensures error.AxiosError? && error.response.Some? && error.response.value.data.ObjectData? ==>
              var d := error.response.value.data;
              msg == FirstNonEmpty([d.error, d.message, d.detail, error.message])
  {
    match error
    case OtherError => DefaultLoginError
    case AxiosError(message, None) => if message != "" then message else "Network error"
    case AxiosError(message, Some(response)) =>
      match response.data
      case TextData(text) => text
      case ObjectData(e, m, d) => FirstNonEmpty([e, m, d, message])
      case NoData => DefaultLoginError
  }

  /** The object-body message is the first of `error`, `message`, `detail` that is set,
      and the axios message only when none of them is. */
  lemma LoginErrorPrecedence(e: string, m: string, d: string, axiosMessage: string, status: int)
    ensures var msg := LoginErrorMessage(AxiosError(axiosMessage, Some(HttpResponse(status, ObjectData(e, m, d)))));
            && (e != "" ==> msg == e)
            && (e == "" && m != "" ==> msg == m)
            && (e == "" && m == "" && d != "" ==> msg == d)
            && (e == "" && m == "" && d == "" ==> msg == axiosMessage)
  {
    var cs := [e, m, d, axiosMessage];
    var msg := FirstNonEmpty(cs);
    assert cs[0] == e && cs[1] == m && cs[2] == d && cs[3] == axiosMessage;
    if msg != "" {
      var k :| 0 <= k < |cs| && cs[k] == msg && forall j :: 0 <= j < k ==> cs[j] == "";
      assert e != "" ==> k == 0;
      assert e == "" && m != "" ==> k == 1;
      assert e == "" && m == "" && d != "" ==> k == 2;
    } else {
      assert cs[3] == "";
    }
  }

  /** Does the failed login run `handleLogout`? Only for a 401 response. */
  predicate LogsOutOnLoginFailure(error: RequestError) {
    error.AxiosError? && error.response.Some? && error.response.value.status == 401
  }

  /** `useAuth()`: the context, or the error it throws outside a provider. */
  datatype Result<T> = Ok(value: T) | Err(message: string)

  function UseAuth<T>(context: Option<T>): (r: Result<T>)
    ensures r.Ok? <==> context.Some?
    ensures r.Ok? ==> r.value == context.value
    ensures r.Err? ==> r.message == ProviderMissing
  {
    match context
    case Some(c) => Ok(c)
    case None => Err(ProviderMissing)
  }

  /** The provider's state: `user`, `loading`, the routes pushed so far, and how many
      `/api/logout` requests were sent. */
  class AuthProvider {
    var user: Option<User>
    var loading: bool
    var navigations: seq<string>
    var logoutRequests: nat

    constructor ()
      ensures user == None && loading && navigations == [] && logoutRequests == 0
    {
      user := None;
      loading := true;
      navigations := [];
      logoutRequests := 0;
    }

    /** `handleLogout`: posts `/api/logout`, clears the user, goes to `/login`. */
    method HandleLogout()
      modifies this
      ensures user == None && navigations == old(navigations) + ["/login"]
      ensures logoutRequests == old(logoutRequests) + 1 && loading == old(loading)
    {
      logoutRequests := logoutRequests + 1;
      user := None;
      navigations := navigations + ["/login"];
    }

    /** `login`: on success the user is set and the app goes to the role's dashboard; on
        failure the call throws the derived message, the user is kept (or cleared by the
        logout a 401 triggers). `loading` is false afterwards either way. */
    method Login(outcome: LoginOutcome) returns (r: Result<()>)
      modifies this
      ensures !loading
      ensures outcome.LoginSucceeded? ==>
                r == Ok(()) && user == Some(outcome.user) &&
                navigations == old(navigations) + [RoleDashboard(outcome.user.role)] &&
                logoutRequests == old(logoutRequests)
      ensures outcome.LoginAnsweredWithoutUser? ==>
                r == Err(DefaultLoginError) && user == None &&
                navigations == old(navigations) && logoutRequests == old(logoutRequests)
      ensures outcome.LoginFailed? ==> r == Err(LoginErrorMessage(outcome.error))
      ensures outcome.LoginFailed? && LogsOutOnLoginFailure(outcome.error) ==>
                user == None && navigations == old(navigations) + ["/login"] &&
                logoutRequests == old(logoutRequests) + 1
      ensures outcome.LoginFailed? && !LogsOutOnLoginFailure(outcome.error) ==>
                user == old(user) && navigations == old(navigations) && logoutRequests == old(logoutRequests)
    {
      loading := true;
      match outcome {
      case LoginSucceeded(u) =>
        user := Some(u);
        navigations := navigations + [RoleDashboard(u.role)];
        r := Ok(());
      case LoginAnsweredWithoutUser =>
        // `setUser(undefined)`, then reading `.role` of undefined throws a non-axios error.
        user := None;
        r := Err(DefaultLoginError);
      case LoginFailed(error) =>
        var errorMessage := LoginErrorMessage(error);
        if LogsOutOnLoginFailure(error) {
          HandleLogout();
        }
        r := Err(errorMessage);
      }
      loading := false;
    }

    /** `verifyToken` (exposed as `checkAuth`): true, with the user set, iff the response is
        valid and carries a user; an invalid response or an axios error logs out, any other
        error changes nothing. `loading` is false afterwards. */
    method VerifyToken(outcome: VerifyOutcome) returns (ok: bool)
      modifies this
      ensures !loading
      ensures ok <==> outcome.VerifyResponded? && outcome.valid && outcome.user.Some?
      ensures ok ==> user == outcome.user && navigations == old(navigations) && logoutRequests == old(logoutRequests)
      ensures !ok && LogsOutOnVerify(outcome) ==>
                user == None && navigations == old(navigations) + ["/login"] &&
                logoutRequests == old(logoutRequests) + 1
      ensures !ok && !LogsOutOnVerify(outcome) ==>
                user == old(user) && navigations == old(navigations) && logoutRequests == old(logoutRequests)
    {
      loading := true;
      match outcome {
      case VerifyResponded(valid, u) =>
        if valid && u.Some? {
          user := u;
          ok := true;
        } else {
          HandleLogout();
          ok := false;
        }
      case VerifyFailed(error) =>
        if error.AxiosError? {
          HandleLogout();
        }
        ok := false;
      }
      loading := false;
    }

    /** `checkAuthOnLoad`, with `mounted` as it stands when the request settles: the same
        decisions as `verifyToken`, but nothing at all once the provider unmounted. */
    method CheckAuthOnLoad(outcome: VerifyOutcome, mounted: bool)
      modifies this
      ensures !mounted ==> user == old(user) && loading == old(loading) &&
                           navigations == old(navigations) && logoutRequests == old(logoutRequests)
      ensures mounted ==> !loading
      ensures mounted && outcome.VerifyResponded? && outcome.valid && outcome.user.Some? ==>
                user == outcome.user && navigations == old(navigations) && logoutRequests == old(logoutRequests)
      ensures mounted && LogsOutOnVerify(outcome) ==>
                user == None && navigations == old(navigations) + ["/login"] &&
                logoutRequests == old(logoutRequests) + 1
      ensures mounted && outcome.VerifyFailed? && outcome.error.OtherError? ==>
                user == old(user) && navigations == old(navigations) && logoutRequests == old(logoutRequests)
    {
      if !mounted {
        return;
      }
      match outcome {
      case VerifyResponded(valid, u) =>
        if valid && u.Some? {
          user := u;
        } else {
          HandleLogout();
        }
      case VerifyFailed(error) =>
        if error.AxiosError? {
          HandleLogout();
        }
      }
      loading := false;
    }
  }

  /** Does a failed verification log out? An invalid answer or an axios error does. */
  predicate LogsOutOnVerify(outcome: VerifyOutcome) {
    match outcome
    case VerifyResponded(valid, u) => !(valid && u.Some?)
    case VerifyFailed(error) => error.AxiosError?
  }
}
