/** The sign-up page: the ordered checks before registration, the registration request,
    and sign-up through a Google credential. */
module SignUp {
  import opened JsText
  import opened Lists
  import opened BrowserStorage
  import opened AuthForms

  const RegisterUrl := "https://ai-way-2-vacation.onrender.com/auth/register"
  const GoogleAuthUrl := "https://ai-way-2-vacation.onrender.com/auth/google-auth"

  datatype SignUpForm = SignUpForm(username: string, email: string, password: string, confirmPassword: string)

  const ShortUsernameAlert := Alert("Invalid Username", "Username must be at least 3 characters", "warning")
  const SignUpSuccessAlert := Alert("Sign Up Successful!", "Your account has been created!", "success")

  predicate AllFilled(f: SignUpForm) {
    f.username != "" && f.email != "" && f.password != "" && f.confirmPassword != ""
  }

  /** The checks of `handleSignUp`, in order; `None` means the request is sent. Lengths
      are those of `String.prototype.length`, in UTF-16 code units. */
  function SignUpCheck(f: SignUpForm): (r: Option<Alert>)
    ensures r.None? <==> AllFilled(f) && f.password == f.confirmPassword && Utf16Length(f.password) >= 6 && Utf16Length(f.username) >= 3
    ensures !AllFilled(f) ==> r == Some(MissingFieldsAlert)
    ensures AllFilled(f) && f.password != f.confirmPassword ==> r == Some(MismatchAlert)
    ensures AllFilled(f) && f.password == f.confirmPassword && Utf16Length(f.password) < 6 ==> r == Some(WeakPasswordAlert)
    ensures AllFilled(f) && f.password == f.confirmPassword && Utf16Length(f.password) >= 6 && Utf16Length(f.username) < 3 ==>
              r == Some(ShortUsernameAlert)
  {
    if !AllFilled(f) then Some(MissingFieldsAlert)
    else if f.password != f.confirmPassword then Some(MismatchAlert)
    else if Utf16Length(f.password) < 6 then Some(WeakPasswordAlert)
    else if Utf16Length(f.username) < 3 then Some(ShortUsernameAlert)
    else None
  }

  /** A mismatch is reported even when both passwords are also too short, and a short
      password even when the username is also too short. */
  lemma CheckOrderExamples()
    ensures SignUpCheck(SignUpForm("al", "a@b.c", "abc", "abd")) == Some(MismatchAlert)
    ensures SignUpCheck(SignUpForm("al", "a@b.c", "abc", "abc")) == Some(WeakPasswordAlert)
  {
  }

  /** Characters outside the Basic Multilingual Plane count twice: three emoji make a
      long enough password and two a long enough username. */
  lemma AstralCharactersCountTwice()
    ensures SignUpCheck(SignUpForm(TwoEmoji, "a@b.c", ThreeEmoji, ThreeEmoji)) == None
  {
    assert Utf16Length(ThreeEmoji) == 6;
    assert Utf16Length(TwoEmoji) == 4;
  }

  const TwoEmoji := "\U{1F600}\U{1F600}"
  const ThreeEmoji := "\U{1F600}\U{1F600}\U{1F600}"

  /** The registration body: the three fields, never the confirmation. */
  function RegisterBody(f: SignUpForm): (body: map<string, string>)
    ensures body.Keys == {"username", "email", "password"}
    ensures body["username"] == f.username && body["email"] == f.email && body["password"] == f.password
  {
    map["username" := f.username, "email" := f.email, "password" := f.password]
  }

  /** The dialog `handleSignUp` shows for the server's reply. */
  function SignUpReplyAlert(reply: Reply): (a: Alert)
    ensures reply.NetworkFailure? ==> a == NetworkErrorAlert
    ensures reply.Reply? && reply.ok ==> a == SignUpSuccessAlert
    ensures reply.Reply? && !reply.ok ==> a == Alert("Sign Up Failed", Detail(reply.data, "Something went wrong"), "error")
  {
    match reply
    case NetworkFailure => NetworkErrorAlert
    case Reply(ok, data) =>
      if ok then SignUpSuccessAlert else Alert("Sign Up Failed", Detail(data, "Something went wrong"), "error")
  }

  predicate IsUsernameChar(c: char) {
    'a' <= c <= 'z' || '0' <= c <= '9' || c == '_'
  }

  /** The username built from a Google display name: lower-cased, each white space run
      replaced by `_`, everything outside `[a-z0-9_]` dropped, the first 20 kept. */
  function GoogleUsername(name: string): (u: string)
    ensures |u| <= 20
    ensures forall i :: 0 <= i < |u| ==> IsUsernameChar(u[i])
  {
    var kept := Filter(CollapseSpaces(Lower(name)), IsUsernameChar);
    assert forall i :: 0 <= i < |kept| ==> kept[i] in kept;
    if |kept| <= 20 then kept else kept[..20]
  }

  /** The username is taken from the display name: its characters occur, in order, in
      the lower-cased name with white-space runs collapsed, and it has as many of that
      text's `[a-z0-9_]` characters as fit in 20. */
  lemma GoogleUsernameFromName(name: string)
    ensures IsSubsequence(GoogleUsername(name), CollapseSpaces(Lower(name)))
    ensures var n := CountWhere(CollapseSpaces(Lower(name)), IsUsernameChar);
            |GoogleUsername(name)| == if n <= 20 then n else 20
  {
    var collapsed := CollapseSpaces(Lower(name));
    var kept := Filter(collapsed, IsUsernameChar);
    FilterIsSubsequence(collapsed, IsUsernameChar);
    FilterLength(collapsed, IsUsernameChar);
    if |kept| > 20 {
      PrefixIsSubsequence(kept, collapsed, 20);
    } else {
      assert kept[..|kept|] == kept;
    }
  }

  /** A string that already has the username's shape passes the normaliser unchanged. */
  lemma UsernameShapeIsFixed(u: string)
    requires |u| <= 20
    requires forall i :: 0 <= i < |u| ==> IsUsernameChar(u[i])
    ensures GoogleUsername(u) == u
  {
    assert Lower(u) == u;
    assert NoSpace(u);
    CollapseSpacesKeeps(u);
    FilterKeepsAll(u, IsUsernameChar);
  }

  /** Normalising a normalised username changes nothing. */
  lemma GoogleUsernameIdempotent(name: string)
    ensures GoogleUsername(GoogleUsername(name)) == GoogleUsername(name)
  {
    UsernameShapeIsFixed(GoogleUsername(name));
  }

  /** The sign-up page's state: the form fields and the flag that disables its button. */
  class SignUpPage {
    var form: SignUpForm
    var isSigningUp: bool

    constructor ()
      ensures form == SignUpForm("", "", "", "") && !isSigningUp
    {
      form := SignUpForm("", "", "", "");
      isSigningUp := false;
    }

    /** `handleChange`: the input named `name` takes `value`. */
    method Change(name: string, value: string)
      modifies this
      ensures name == "username" ==> form == old(form).(username := value)
      ensures name == "email" ==> form == old(form).(email := value)
      ensures name == "password" ==> form == old(form).(password := value)
      ensures name == "confirmPassword" ==> form == old(form).(confirmPassword := value)
      ensures name !in {"username", "email", "password", "confirmPassword"} ==> form == old(form)
      ensures isSigningUp == old(isSigningUp)
    {
      if name == "username" {
        form := form.(username := value);
      } else if name == "email" {
        form := form.(email := value);
      } else if name == "password" {
        form := form.(password := value);
      } else if name == "confirmPassword" {
        form := form.(confirmPassword := value);
      }
    }

    /** `handleSignUp` up to the request: a failed check shows its dialog and leaves the
        flag alone; otherwise the flag is set and the registration is posted. */
    method StartSignUp() returns (request: Option<Post>, alert: Option<Alert>)
      modifies this
      ensures form == old(form)
      ensures SignUpCheck(form).Some? ==> request == None && alert == SignUpCheck(form) && isSigningUp == old(isSigningUp)
      ensures SignUpCheck(form).None? ==> request == Some(Post(RegisterUrl, RegisterBody(form))) && alert == None && isSigningUp
    {
      alert := SignUpCheck(form);
      if alert.Some? {
        return None, alert;
      }
      isSigningUp := true;
      request := Some(Post(RegisterUrl, RegisterBody(form)));
    }

    /** The rest of `handleSignUp`: the reply's dialog, the move to the login page on
        success, and the flag cleared in `finally` whatever happened. */
    method FinishSignUp(reply: Reply) returns (alert: Alert, navigateTo: Option<string>)
      modifies this
      ensures !isSigningUp && form == old(form)
      ensures alert == SignUpReplyAlert(reply)
      ensures navigateTo == if reply.Reply? && reply.ok then Some("/login") else None
    {
      alert := SignUpReplyAlert(reply);
      navigateTo := if reply.Reply? && reply.ok then Some("/login") else None;
      isSigningUp := false;
    }
  }

  /** `handleGoogleSuccess`: `claims` is the decoded credential (`None` when it cannot be
      decoded), `reply` what the server answers if the request is sent. A credential
      without a name fails before the request. */
  method HandleGoogleSuccess(storage: LocalStorage, claims: Option<map<string, string>>, reply: Reply)
    returns (request: Option<Post>, alert: Alert, navigateTo: Option<string>)
    modifies storage
    ensures request.None? <==> claims.None? || "name" !in claims.value
    ensures request.Some? ==> request.value == Post(GoogleAuthUrl, GoogleBody(claims.value, GoogleUsername(claims.value["name"])))
    ensures storage.items == if request.Some? && reply.Reply? && reply.ok then SessionWrites(old(storage.items), reply.data)
                             else old(storage.items)
    ensures request.None? || reply.NetworkFailure? ==> alert == GoogleErrorAlert && navigateTo == None
    ensures request.Some? && reply.Reply? && reply.ok ==>
              alert == Alert("Sign Up Successful!", "Welcome to AI Trip Planner, " + JsString(Lookup(reply.data, "username")) + "!", "success")
              && navigateTo == Some("/planner")
    ensures request.Some? && reply.Reply? && !reply.ok ==>
              alert == Alert("Google Sign Up Failed", Detail(reply.data, "Unable to sign up with Google"), "error")
              && navigateTo == None
  {
    if claims.None? || "name" !in claims.value {
      return None, GoogleErrorAlert, None;
    }
    var username := GoogleUsername(claims.value["name"]);
    request := Some(Post(GoogleAuthUrl, GoogleBody(claims.value, username)));
    match reply
    case NetworkFailure =>
      alert, navigateTo := GoogleErrorAlert, None;
    case Reply(ok, data) =>
      if ok {
        WriteSession(storage, data);
        alert := Alert("Sign Up Successful!", "Welcome to AI Trip Planner, " + JsString(Lookup(data, "username")) + "!", "success");
        navigateTo := Some("/planner");
      } else {
        alert := Alert("Google Sign Up Failed", Detail(data, "Unable to sign up with Google"), "error");
        navigateTo := None;
      }
  }
}
