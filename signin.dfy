/** The sign-in page: the guard before the login request, the session it stores, and
    sign-in through a Google credential. */
module SignIn {
  import opened JsText
  import opened BrowserStorage
  import opened AuthForms
  import opened Lists
  import SignUp

  const LoginUrl := "http://127.0.0.1:8000/auth/login"
  const GoogleAuthUrl := "http://127.0.0.1:8000/auth/google-auth"

  datatype LoginForm = LoginForm(email: string, password: string)

  /** The guard of `handleLogin`; `None` means the request is sent. */
  function LoginCheck(f: LoginForm): (r: Option<Alert>)
    ensures r.None? <==> f.email != "" && f.password != ""
    ensures r.Some? ==> r.value == MissingFieldsAlert
  {
    if f.email == "" || f.password == "" then Some(MissingFieldsAlert) else None
  }

  /** `{ email, password }`. */
  function LoginBody(f: LoginForm): (body: map<string, string>)
    ensures body.Keys == {"email", "password"}
    ensures body["email"] == f.email && body["password"] == f.password
  {
    map["email" := f.email, "password" := f.password]
  }

  /** The dialog `handleLogin` shows for the server's reply. */
  function LoginReplyAlert(reply: Reply): (a: Alert)
    ensures reply.NetworkFailure? ==> a == NetworkErrorAlert
    ensures reply.Reply? && reply.ok ==> a == Alert("Login Successful!", "Welcome back, " + JsString(Lookup(reply.data, "username")) + "!", "success")
    ensures reply.Reply? && !reply.ok ==> a == Alert("Login Failed", Detail(reply.data, "Invalid credentials"), "error")
  {
    match reply
    case NetworkFailure => NetworkErrorAlert
    case Reply(ok, data) =>
      if ok then Alert("Login Successful!", "Welcome back, " + JsString(Lookup(data, "username")) + "!", "success")
      else Alert("Login Failed", Detail(data, "Invalid credentials"), "error")
  }

  /** The username built from a Google display name: lower-cased, each white space run
      replaced by `_`; nothing is filtered out and nothing is cut. */
  function GoogleUsername(name: string): (u: string)
    ensures |u| <= |name|
    ensures NoSpace(u)
  {
    CollapseSpaces(Lower(name))
  }

  /** A name with no white space is only lower-cased. */
  lemma GoogleUsernameWithoutSpaces(name: string)
    requires NoSpace(name)
    ensures GoogleUsername(name) == Lower(name)
  {
    assert NoSpace(Lower(name));
    CollapseSpacesKeeps(Lower(name));
  }

  /** The two pages agree exactly on names that the sign-in page already turns into at
      most 20 characters of `[a-z0-9_]`. */
  lemma GoogleUsernamesAgree(name: string)
    requires |GoogleUsername(name)| <= 20
    requires forall i :: 0 <= i < |GoogleUsername(name)| ==> SignUp.IsUsernameChar(GoogleUsername(name)[i])
    ensures SignUp.GoogleUsername(name) == GoogleUsername(name)
  {
    FilterKeepsAll(GoogleUsername(name), SignUp.IsUsernameChar);
  }

  /** The sign-in page's state: the form fields and the flag that disables its button. */
  class SignInPage {
    var form: LoginForm
    var isLoggingIn: bool

    constructor ()
      ensures form == LoginForm("", "") && !isLoggingIn
    {
      form := LoginForm("", "");
      isLoggingIn := false;
    }

    /** `handleChange`: the input named `name` takes `value`. */
    method Change(name: string, value: string)
      modifies this
      ensures name == "email" ==> form == old(form).(email := value)
      ensures name == "password" ==> form == old(form).(password := value)
      ensures name !in {"email", "password"} ==> form == old(form)
      ensures isLoggingIn == old(isLoggingIn)
    {
      if name == "email" {
        form := form.(email := value);
      } else if name == "password" {
        form := form.(password := value);
      }
    }

    /** `handleLogin` up to the request: an empty field shows its dialog and leaves the
        flag alone; otherwise the flag is set and the login is posted. */
    method StartLogin() returns (request: Option<Post>, alert: Option<Alert>)
      modifies this
      ensures form == old(form)
      ensures LoginCheck(form).Some? ==> request == None && alert == LoginCheck(form) && isLoggingIn == old(isLoggingIn)
      ensures LoginCheck(form).None? ==> request == Some(Post(LoginUrl, LoginBody(form))) && alert == None && isLoggingIn
    {
      alert := LoginCheck(form);
      if alert.Some? {
        return None, alert;
      }
      isLoggingIn := true;
      request := Some(Post(LoginUrl, LoginBody(form)));
    }

    /** The rest of `handleLogin`: on success the session is stored and the planner
        opens; the flag is cleared in `finally` whatever happened. */
    method FinishLogin(storage: LocalStorage, reply: Reply) returns (alert: Alert, navigateTo: Option<string>)
      modifies this, storage
      ensures !isLoggingIn && form == old(form)
      ensures storage.items == if reply.Reply? && reply.ok then SessionWrites(old(storage.items), reply.data)
                               else old(storage.items)
      ensures alert == LoginReplyAlert(reply)
      ensures navigateTo == if reply.Reply? && reply.ok then Some("/planner") else None
    {
      if reply.Reply? && reply.ok {
        WriteSession(storage, reply.data);
        navigateTo := Some("/planner");
      } else {
        navigateTo := None;
      }
      alert := LoginReplyAlert(reply);
      isLoggingIn := false;
    }
  }

  /** `handleGoogleSuccess`: `claims` is the decoded credential (`None` when it cannot be
      decoded), `reply` what the server answers if the request is sent. A credential
      without a name fails before the request. */
  method HandleGoogleSuccess(storage: LocalStorage, claims: Option<map<string, string>>, reply: Reply)
    returns (request: Option<Post>, alert: Alert, navigateTo: Option<string>)
    modifies storage
    ensures request.None? <==> claims.None? || "name" !in claims.value
    ensures request.Some? ==> request.value == Post(GoogleAuthUrl, GoogleBody(claims.value, GoogleUsername(claims.value["name"])))
    ensures storage.items == if request.Some? && reply.Reply? && reply.ok then SessionWrites(old(storage.items), reply.data)
                             else old(storage.items)
    ensures request.None? || reply.NetworkFailure? ==> alert == GoogleErrorAlert && navigateTo == None
    ensures request.Some? && reply.Reply? && reply.ok ==>
              alert == Alert("Login Successful!", "Welcome to AI Trip Planner, " + JsString(Lookup(reply.data, "username")) + "!", "success")
              && navigateTo == Some("/planner")
    ensures request.Some? && reply.Reply? && !reply.ok ==>
              alert == Alert("Google Login Failed", Detail(reply.data, "Unable to login with Google"), "error")
              && navigateTo == None
  {
    if claims.None? || "name" !in claims.value {
      return None, GoogleErrorAlert, None;
    }
    var username := GoogleUsername(claims.value["name"]);
    request := Some(Post(GoogleAuthUrl, GoogleBody(claims.value, username)));
    match reply
    case NetworkFailure =>
      alert, navigateTo := GoogleErrorAlert, None;
    case Reply(ok, data) =>
      if ok {
        WriteSession(storage, data);
        alert := Alert("Login Successful!", "Welcome to AI Trip Planner, " + JsString(Lookup(data, "username")) + "!", "success");
        navigateTo := Some("/planner");
      } else {
        alert := Alert("Google Login Failed", Detail(data, "Unable to login with Google"), "error");
        navigateTo := None;
      }
  }
}
