/** The login screen: the empty-credential gate, the classification of the
    `login` response into storage writes and two flags, and the effect that
    turns those flags into a route. */
module Login {
  import opened Ui

  /** The body of the `login` response. */
  datatype LoginResponse = LoginResponse(message: string, userAccountLinked: bool, apiKey: string)

  const LoginUrl := "https://api.ynab.in/login"
  const UserVerified := "user_verified"
  const ApiKeyKey := "api_key"
  const UsernameKey := "username"
  const DashboardPath := "/dashboard"
  const LinkAccountPath := "/link_account"
  const InvalidInputAlert := Alert("Invalid Input", "Please enter both username and password")
  const AuthFailedAlert := Alert("Authentication Failed", "Please check your credentials and try again.")

  /** The request sent for a pair of credentials; they travel in headers. */
  function LoginRequest(username: string, password: string): Request {
    Post(LoginUrl, map["Content-Type" := "application/json", "Username" := username, "Password" := password])
  }

  /** The gate at the top of `loginUser`: the alert it shows, if it refuses. */
  function CheckCredentials(username: string, password: string): (r: Option<Alert>)
    ensures r.Some? <==> username == "" || password == ""
    ensures r.Some? ==> r.value == InvalidInputAlert
  {
    if username == "" || password == "" then Some(InvalidInputAlert) else None
  }

  /** What a response means to `loginUser`. */
  datatype Verdict =
    | Verified(apiKey: string, accountLinked: bool)  // store credentials, set both flags
    | Unverified                                     // any other message: nothing happens
    | Failed                                         // the catch branch

  function Classify(response: HttpResult<LoginResponse>): (v: Verdict)
    ensures v.Failed? <==> !response.Delivered()
    ensures v.Verified? <==> response.Delivered() && response.body.value.message == UserVerified
    ensures v.Verified? ==>
      v.apiKey == response.body.value.apiKey && v.accountLinked == response.body.value.userAccountLinked
  {
    if !response.Delivered() then Failed
    else
      var body := response.body.value;
      if body.message == UserVerified then Verified(body.apiKey, body.userAccountLinked) else Unverified
  }

  /** `router.replace({ pathname, params: { username } })`. */
  datatype Route = Replace(pathname: string, username: string)

  /** The effect on `[isUserVerified, isBankAccountLinked]`: where it navigates to. */
  function RouteFor(isUserVerified: bool, isBankAccountLinked: bool, username: string): (r: Option<Route>)
    ensures r.Some? <==> isUserVerified
    ensures r.Some? ==> r.value.username == username
    ensures r.Some? ==> (r.value.pathname == DashboardPath <==> isBankAccountLinked)
    ensures r.Some? ==> (r.value.pathname == LinkAccountPath <==> !isBankAccountLinked)
  {
    if !isUserVerified then None
    else if isBankAccountLinked then Some(Replace(DashboardPath, username))
    else Some(Replace(LinkAccountPath, username))
  }

  /** The screen's state and the key-value store it writes to. `loginUser` is
      split at its `await`: BeginLogin runs up to the request, FinishLogin runs
      the continuation with the response. While `loading` the screen renders
      only its spinner, so the input handlers and BeginLogin run only when it
      is false, and one FinishLogin follows each request sent. */
  class LoginScreen {
    var username: string
    var password: string
    var isUserVerified: bool
    var isBankAccountLinked: bool
    var loading: bool
    var storage: map<string, string>

    /** A linked account is only ever recorded for a verified user, and a
        verified user's key and name have been stored. */
    ghost predicate Valid()
      reads this
    {
      && (isBankAccountLinked ==> isUserVerified)
      && (isUserVerified ==> ApiKeyKey in storage && UsernameKey in storage)
    }

    /** A freshly mounted screen over whatever the store already holds. On
        mount the route effect runs with both flags false and goes nowhere. */
    constructor (stored: map<string, string>)
      ensures Valid()
      ensures username == "" && password == ""
      ensures !isUserVerified && !isBankAccountLinked && !loading
      ensures storage == stored
      ensures RouteFor(isUserVerified, isBankAccountLinked, username) == None
    {
      username, password := "", "";
      isUserVerified, isBankAccountLinked, loading := false, false, false;
      storage := stored;
    }

    /** `setUsername`, the username input's handler. */
    method SetUsername(value: string)
      requires Valid() && !loading
      modifies this`username
      ensures Valid() && username == value
    {
      username := value;
    }

    /** `setPassword`, the password input's handler. */
    method SetPassword(value: string)
      requires Valid() && !loading
      modifies this`password
      ensures Valid() && password == value
    {
      password := value;
    }

    /** Refuse empty credentials without sending anything or showing the
        spinner; otherwise show the spinner and send the request. */
    method BeginLogin() returns (request: Option<Request>, alert: Option<Alert>)
      requires Valid() && !loading
      modifies this`loading
      ensures Valid()
      ensures alert == CheckCredentials(username, password)
      ensures alert.Some? ==> request == None && loading == old(loading)
      ensures alert.None? ==> request == Some(LoginRequest(username, password)) && loading
    {
      alert := CheckCredentials(username, password);
      if alert.Some? {
        return None, alert;
      }
      loading := true;
      request := Some(LoginRequest(username, password));
    }

    /** The continuation after the response, then the route effect, which
        React runs when one of its two dependencies has changed. */
    method FinishLogin(response: HttpResult<LoginResponse>) returns (alert: Option<Alert>, route: Option<Route>)
      requires Valid() && loading
      modifies this`loading, this`isUserVerified, this`isBankAccountLinked, this`storage
      ensures Valid() && !loading
      ensures match Classify(response)
        case Verified(key, linked) =>
          && storage == old(storage)[ApiKeyKey := key][UsernameKey := username]
          && isUserVerified && isBankAccountLinked == linked && alert == None
        case Unverified =>
          && storage == old(storage) && alert == None
          && isUserVerified == old(isUserVerified) && isBankAccountLinked == old(isBankAccountLinked)
        case Failed =>
          && storage == old(storage) && alert == Some(AuthFailedAlert)
          && isUserVerified == old(isUserVerified) && isBankAccountLinked == old(isBankAccountLinked)
      ensures route ==
        if isUserVerified == old(isUserVerified) && isBankAccountLinked == old(isBankAccountLinked) then None
        else RouteFor(isUserVerified, isBankAccountLinked, username)
      ensures !old(isUserVerified) ==> (route.Some? <==> Classify(response).Verified?)
      ensures route.Some? ==> route.value.username == username
    {
      var wasVerified, wasLinked := isUserVerified, isBankAccountLinked;
      alert := None;
      match Classify(response) {
        case Verified(key, linked) =>
          storage := storage[ApiKeyKey := key];
          storage := storage[UsernameKey := username];
          isBankAccountLinked := linked;
          isUserVerified := true;
        case Unverified =>
        case Failed =>
          alert := Some(AuthFailedAlert);
      }
      loading := false;
      route := None;
      if isUserVerified != wasVerified || isBankAccountLinked != wasLinked {
        route := RouteFor(isUserVerified, isBankAccountLinked, username);
      }
    }
  }

  /** A verified user with a linked account lands on the dashboard, one
      without on the account-linking screen, both carrying the username. */
  method ExampleLogin(key: string, linked: bool)
  {
    var screen := new LoginScreen(map[]);
    screen.SetUsername("alice");
    screen.SetPassword("secret");
    var request, alert := screen.BeginLogin();
    assert request == Some(LoginRequest("alice", "secret")) && screen.loading;
    var response := Completed(true, 200, Some(LoginResponse(UserVerified, linked, key)));
    var failure, route := screen.FinishLogin(response);
    assert screen.storage == map[ApiKeyKey := key, UsernameKey := "alice"];
    assert route == Some(Replace(if linked then DashboardPath else LinkAccountPath, "alice"));
    assert !screen.loading && failure == None;
  }
}
