/**
 * The sign-in page: a Login/Sign Up form whose submit posts the credentials,
 * stores the session on success and routes to the landing page, and shows the
 * error text on failure. The asynchronous submit is split at its await into a
 * start step and a settle step; Submit runs both around an apiFetch call.
 */
module AuthPage {
  import opened Wrappers
  import Auth
  import Api

  datatype AuthTab = Login | Signup

  const LoginPath := "/api/auth/login"
  const SignupPath := "/api/auth/signup"
  const LandingRoute := "/landing"
  const PostMethod := "POST"

  /** The tab chooses the endpoint. */
  function EndpointPath(tab: AuthTab): (r: string)
    ensures tab == Login <==> r == LoginPath
    ensures tab == Signup <==> r == SignupPath
  {
    assert |LoginPath| != |SignupPath|;
    match tab
    case Login => LoginPath
    case Signup => SignupPath
  }

  /** The JSON body: { username, password } or { username, password, admin_code } where None is null. */
  datatype AuthBody =
    | LoginBody(username: string, password: string)
    | SignupBody(username: string, password: string, adminCode: Option<string>)

  /** The body for the current tab; a blank admin code is sent as null. No field is validated. */
  function RequestBody(tab: AuthTab, username: string, password: string, adminCode: string): (r: AuthBody)
    ensures r.username == username && r.password == password
    ensures r.LoginBody? <==> tab == Login
    ensures r.SignupBody? ==> (r.adminCode.None? <==> adminCode == "")
    ensures r.SignupBody? && r.adminCode.Some? ==> r.adminCode.value == adminCode
  {
    if tab == Login then LoginBody(username, password)
    else SignupBody(username, password, if adminCode != "" then Some(adminCode) else None)
  }

  /** What the backend answers on success. */
  datatype AuthResponse = AuthResponse(accessToken: string, user: Auth.User)

  /** The error a storage write raises outside a browser. */
  const NoWindowError := Api.ApiError("ReferenceError", "window is not defined")

  class AuthForm {
    var tab: AuthTab
    var username: string
    var password: string
    var adminCode: string
    var error: Option<string>
    var loading: bool
    /** The target of the last router.replace, if any. */
    var route: Option<string>

    constructor()
      ensures tab == Login && username == "" && password == "" && adminCode == ""
      ensures error == None && !loading && route == None
    {
      tab := Login;
      username := "";
      password := "";
      adminCode := "";
      error := None;
      loading := false;
      route := None;
    }

    /** The submit button is disabled exactly while a request is outstanding. */
    predicate ButtonDisabled()
      reads this
    {
      loading
    }

    method SelectTab(t: AuthTab)
      modifies this
      ensures tab == t
      ensures username == old(username) && password == old(password) && adminCode == old(adminCode)
      ensures error == old(error) && loading == old(loading) && route == old(route)
    {
      tab := t;
    }

    method SetUsername(s: string)
      modifies this
      ensures username == s
      ensures tab == old(tab) && password == old(password) && adminCode == old(adminCode)
      ensures error == old(error) && loading == old(loading) && route == old(route)
    {
      username := s;
    }

    method SetPassword(s: string)
      modifies this
      ensures password == s
      ensures tab == old(tab) && username == old(username) && adminCode == old(adminCode)
      ensures error == old(error) && loading == old(loading) && route == old(route)
    {
      password := s;
    }

    method SetAdminCode(s: string)
      modifies this
      ensures adminCode == s
      ensures tab == old(tab) && username == old(username) && password == old(password)
      ensures error == old(error) && loading == old(loading) && route == old(route)
    {
      adminCode := s;
    }

    /**
     * The part of submit before the await: the error is cleared, loading is
     * set, and the path and body are chosen from the current form.
     */
    method BeginSubmit() returns (path: string, body: AuthBody)
      modifies this
      ensures error == None && loading && ButtonDisabled()
      ensures path == EndpointPath(tab) && body == RequestBody(tab, username, password, adminCode)
      ensures tab == old(tab) && username == old(username) && password == old(password) && adminCode == old(adminCode)
      ensures route == old(route)
    {
      error := None;
      loading := true;
      path := if tab == Login then LoginPath else SignupPath;
      body := if tab == Login then LoginBody(username, password)
              else SignupBody(username, password, if adminCode != "" then Some(adminCode) else None);
    }

    /**
     * The part after the await. On success: setAuth, then the route to the
     * landing page (a throwing setAuth skips the route and reports its error).
     * On failure: the error text. Either way loading ends false.
     */
    method FinishSubmit(store: Auth.SessionStore, outcome: Result<AuthResponse, Api.ApiError>)
      modifies this, store
      ensures !loading && !ButtonDisabled()
      ensures tab == old(tab) && username == old(username) && password == old(password) && adminCode == old(adminCode)
      ensures outcome.Success? && store.hasWindow ==>
                store.storage == Auth.Stored(old(store.storage), outcome.value.accessToken, outcome.value.user, store.codec)
                && route == Some(LandingRoute) && error == old(error)
      ensures outcome.Success? && !store.hasWindow ==>
                store.storage == old(store.storage) && route == old(route) && error == Some(Api.Describe(NoWindowError))
      ensures outcome.Failure? ==>
                store.storage == old(store.storage) && route == old(route) && error == Some(Api.Describe(outcome.error))
    {
      match outcome {
        case Success(res) =>
          var ok := store.SetAuth(res.accessToken, res.user);
          if ok {
            route := Some(LandingRoute);
          } else {
            error := Some(Api.Describe(NoWindowError));
          }
        case Failure(e) =>
          error := Some(Api.Describe(e));
      }
      loading := false;
    }

    /** submit(): POST the body through apiFetch and settle on its outcome. */
    method Submit(store: Auth.SessionStore, env: Option<string>,
                  transport: Api.Request<AuthBody> -> Api.Reply<AuthResponse>)
      returns (req: Api.Request<AuthBody>)
      modifies this, store
      ensures Api.Builds(req, old(store.GetToken()), Api.Base(env), EndpointPath(tab),
                         Api.Options(Some(PostMethod), [], None, Some(RequestBody(tab, username, password, adminCode))))
      ensures req.url == Api.Base(env) + EndpointPath(tab)
      ensures req.httpMethod == Some(PostMethod)
      ensures req.body == Api.Json(RequestBody(tab, username, password, adminCode))
      ensures !loading
      ensures tab == old(tab) && username == old(username) && password == old(password) && adminCode == old(adminCode)
      ensures var outcome := Api.Outcome(transport(req));
              && (outcome.Success? && store.hasWindow ==>
                    store.storage == Auth.Stored(old(store.storage), outcome.value.accessToken, outcome.value.user, store.codec)
                    && route == Some(LandingRoute) && error == None)
              && (outcome.Success? && !store.hasWindow ==>
                    store.storage == old(store.storage) && route == old(route) && error == Some(Api.Describe(NoWindowError)))
              && (outcome.Failure? ==>
                    store.storage == old(store.storage) && route == old(route) && error == Some(Api.Describe(outcome.error)))
    {
      var path, body := BeginSubmit();
      var outcome;
      req, outcome := Api.ApiFetch(store, env, path, Api.Options(Some(PostMethod), [], None, Some(body)), transport);
      FinishSubmit(store, outcome);
    }
  }

  /** A failed submit always leaves a non-empty message when the server answered with a status. */
  lemma FailedSubmitShowsMessage(status: nat, text: Option<string>, json: Result<AuthResponse, Api.ApiError>)
    requires !Api.StatusOk(status)
    ensures Api.Describe(Api.Outcome(Api.Responded(status, text, json)).error) != ""
  {
    Api.FailedResponseMessage(status, text, json);
  }

  /** Login and signup bodies for the same credentials differ only in the admin code. */
  lemma BodiesShareCredentials(username: string, password: string, adminCode: string)
    ensures RequestBody(Login, username, password, adminCode) == LoginBody(username, password)
    ensures RequestBody(Signup, username, password, adminCode).adminCode == (if adminCode == "" then None else Some(adminCode))
  {
  }
}
