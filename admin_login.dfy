// The admin sign-in form: its field validation before the session store's
// login is called, the toast and navigation after that call settles, and the
// one error line the form displays.
module AdminLogin {
  import opened Wrappers
  import ApiClient
  import AuthStore
  import ToastStore
  import ResourceStore

  const EmailRequired := "email is required"
  const PasswordRequired := "password is required"
  const SuccessText := "Login successful!"
  const FailureText := "Invalid credentials. Please try again."
  const AdminPath := "/admin"

  datatype Credentials = Credentials(email: string, password: string)

  /** The toast a settled login shows. */
  datatype ToastRequest = ToastRequest(message: string, kind: string)

  class LoginForm {
    var email: string
    var password: string
    var emailError: string
    var passwordError: string

    constructor ()
      ensures email == "" && password == "" && emailError == "" && passwordError == ""
    {
      email, password, emailError, passwordError := "", "", "", "";
    }

    method SetEmail(value: string)
      modifies this
      ensures email == value
      ensures password == old(password) && emailError == old(emailError) && passwordError == old(passwordError)
    {
      email := value;
    }

    method SetPassword(value: string)
      modifies this
      ensures password == value
      ensures email == old(email) && emailError == old(emailError) && passwordError == old(passwordError)
    {
      password := value;
    }

    /** The synchronous part of submitting. With a field missing only the
        messages of the missing fields are set and login is not called; with
        both present the messages are cleared and the credentials are sent. */
    method SubmitBegin() returns (sent: Option<Credentials>)
      modifies this
      ensures email == old(email) && password == old(password)
      ensures sent.Some? <==> email != "" && password != ""
      ensures sent.Some? ==> sent.value == Credentials(email, password)
      ensures emailError == (if email == "" then EmailRequired else "")
      ensures passwordError == (if password == "" then PasswordRequired else "")
    {
      if email == "" || password == "" {
        emailError := if email == "" then EmailRequired else "";
        passwordError := if password == "" then PasswordRequired else "";
        return None;
      }
      emailError, passwordError := "", "";
      return Some(Credentials(email, password));
    }
  }

  /** After login settles: success shows a success toast and moves to the
      dashboard; a thrown error shows an error toast and stays. */
  function AfterLogin(thrown: Option<ApiClient.ErrorValue>): (r: (ToastRequest, Option<string>))
    ensures thrown.None? ==> r.0 == ToastRequest(SuccessText, "success") && r.1 == Some(AdminPath)
    ensures thrown.Some? ==> r.0 == ToastRequest(FailureText, "error") && r.1.None?
  {
    if thrown.None? then (ToastRequest(SuccessText, "success"), Some(AdminPath))
    else (ToastRequest(FailureText, "error"), None)
  }

  /** `authError || email || password`: the first truthy one, or nothing shown. */
  function DisplayedError(authError: Option<string>, emailError: string, passwordError: string)
    : (r: Option<string>)
    ensures r.Some? <==> ApiClient.Truthy(authError) || emailError != "" || passwordError != ""
    ensures ApiClient.Truthy(authError) ==> r == authError
    ensures !ApiClient.Truthy(authError) && emailError != "" ==> r == Some(emailError)
    ensures !ApiClient.Truthy(authError) && emailError == "" && passwordError != "" ==> r == Some(passwordError)
  {
    if ApiClient.Truthy(authError) then authError
    else if emailError != "" then Some(emailError)
    else if passwordError != "" then Some(passwordError)
    else None
  }

  /** With both fields empty only the email message is displayed. */
  lemma BothMissingShowsEmail()
    ensures DisplayedError(None, EmailRequired, PasswordRequired) == Some(EmailRequired)
  {
  }

  /** Submitting with an empty password sends nothing and displays only the
      password message. */
  method EmptyPassword(email: string) returns (sent: Option<Credentials>, shown: Option<string>)
    requires email != ""
    ensures sent.None? && shown == Some(PasswordRequired)
  {
    var form := new LoginForm();
    form.SetEmail(email);
    sent := form.SubmitBegin();
    shown := DisplayedError(None, form.emailError, form.passwordError);
  }

  /** A rejected login: the store keeps the server's message, the form shows it,
      and the toast reports invalid credentials without leaving the page. */
  method RejectedLogin(email: string, password: string, serverError: string)
    returns (shown: Option<string>, toastText: string, toastKind: string, navigateTo: Option<string>)
    requires email != "" && password != "" && serverError != ""
    ensures shown == Some(serverError)
    ensures toastText == FailureText && toastKind == "error" && navigateTo.None?
  {
    var form := new LoginForm();
    form.SetEmail(email);
    form.SetPassword(password);
    var sent := form.SubmitBegin();
    var session := new AuthStore.Session(map[]);
    session.LoginBegin();
    var reply: ResourceStore.Reply<AuthStore.LoginData> := ResourceStore.Responded(false, Some(serverError), None);
    var thrown := session.LoginDone(reply);
    var after := AfterLogin(thrown);
    var toast := new ToastStore.Toast();
    toast.Show(after.0.message, Some(after.0.kind));
    shown := DisplayedError(session.error, form.emailError, form.passwordError);
    toastText, toastKind, navigateTo := toast.message, toast.kind, after.1;
  }
}
