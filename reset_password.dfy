/** The reset-password page: the ordered checks on the new password and the request that
    carries it with the token from the link. */
module ResetPassword {
  import opened JsText
  import opened AuthForms

  const ResetUrl := "https://ai-way-2-vacation.onrender.com/auth/reset-password"

  datatype ResetForm = ResetForm(password: string, confirmPassword: string)

  const ResetSuccessAlert := Alert("Password Reset Successful!", "Your password has been updated successfully", "success")

  /** The checks of `handleResetPassword`, in order; `None` means the request is sent.
      The length is that of `String.prototype.length`, in UTF-16 code units. */
  function ResetCheck(f: ResetForm): (r: Option<Alert>)
    ensures r.None? <==> f.password != "" && f.confirmPassword != "" && f.password == f.confirmPassword && Utf16Length(f.password) >= 6
    ensures f.password == "" || f.confirmPassword == "" ==> r == Some(MissingFieldsAlert)
    ensures f.password != "" && f.confirmPassword != "" && f.password != f.confirmPassword ==> r == Some(MismatchAlert)
    ensures f.password != "" && f.password == f.confirmPassword && Utf16Length(f.password) < 6 ==> r == Some(WeakPasswordAlert)
  {
    if f.password == "" || f.confirmPassword == "" then Some(MissingFieldsAlert)
    else if f.password != f.confirmPassword then Some(MismatchAlert)
    else if Utf16Length(f.password) < 6 then Some(WeakPasswordAlert)
    else None
  }

  /** Three characters outside the Basic Multilingual Plane are six code units: a long
      enough password. */
  lemma AstralPasswordLongEnough()
    ensures ResetCheck(ResetForm("\U{1F600}\U{1F600}\U{1F600}", "\U{1F600}\U{1F600}\U{1F600}")) == None
  {
    assert Utf16Length("\U{1F600}\U{1F600}\U{1F600}") == 6;
  }

  /** `{ token, new_password: password }`. */
  function ResetBody(token: string, f: ResetForm): (body: map<string, string>)
    ensures body.Keys == {"token", "new_password"}
    ensures body["token"] == token && body["new_password"] == f.password
  {
    map["token" := token, "new_password" := f.password]
  }

  /** The dialog `handleResetPassword` shows for the server's reply. */
  function ResetReplyAlert(reply: Reply): (a: Alert)
    ensures reply.NetworkFailure? ==> a == NetworkErrorAlert
    ensures reply.Reply? && reply.ok ==> a == ResetSuccessAlert
    ensures reply.Reply? && !reply.ok ==> a == Alert("Reset Failed", Detail(reply.data, "Invalid or expired token"), "error")
  {
    match reply
    case NetworkFailure => NetworkErrorAlert
    case Reply(ok, data) =>
      if ok then ResetSuccessAlert else Alert("Reset Failed", Detail(data, "Invalid or expired token"), "error")
  }

  /** The page's state; `token` is the route parameter of the reset link. */
  class ResetPasswordPage {
    const token: string
    var form: ResetForm
    var isResetting: bool

    constructor (routeToken: string)
      ensures token == routeToken && form == ResetForm("", "") && !isResetting
    {
      token := routeToken;
      form := ResetForm("", "");
      isResetting := false;
    }

    /** `handleChange`: the input named `name` takes `value`. */
    method Change(name: string, value: string)
      modifies this
      ensures name == "password" ==> form == old(form).(password := value)
      ensures name == "confirmPassword" ==> form == old(form).(confirmPassword := value)
      ensures name !in {"password", "confirmPassword"} ==> form == old(form)
      ensures isResetting == old(isResetting)
    {
      if name == "password" {
        form := form.(password := value);
      } else if name == "confirmPassword" {
        form := form.(confirmPassword := value);
      }
    }

    /** `handleResetPassword` up to the request: a failed check shows its dialog and
        leaves the flag alone; otherwise the flag is set and the new password is posted. */
    method StartReset() returns (request: Option<Post>, alert: Option<Alert>)
      modifies this
      ensures form == old(form)
      ensures ResetCheck(form).Some? ==> request == None && alert == ResetCheck(form) && isResetting == old(isResetting)
      ensures ResetCheck(form).None? ==> request == Some(Post(ResetUrl, ResetBody(token, form))) && alert == None && isResetting
    {
      alert := ResetCheck(form);
      if alert.Some? {
        return None, alert;
      }
      isResetting := true;
      request := Some(Post(ResetUrl, ResetBody(token, form)));
    }

    /** The rest of `handleResetPassword`: the reply's dialog, the move to the login page
        on success, and the flag cleared in `finally` whatever happened. */
    method FinishReset(reply: Reply) returns (alert: Alert, navigateTo: Option<string>)
      modifies this
      ensures !isResetting && form == old(form)
      ensures alert == ResetReplyAlert(reply)
      ensures navigateTo == if reply.Reply? && reply.ok then Some("/login") else None
    {
      alert := ResetReplyAlert(reply);
      navigateTo := if reply.Reply? && reply.ok then Some("/login") else None;
      isResetting := false;
    }
  }
}
