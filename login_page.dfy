/** The login page of src/pages/auth/Login.tsx: its schema, and `onSubmit`, which calls the
    session's `login` and shows an error when it throws. */
module LoginPage {
  import opened Values
  import opened Gateway
  import AuthService
  import opened AuthContext
  import Schema

  datatype Fields = Fields(email: string, password: string)

  datatype Errors = Errors(email: Option<string>, password: Option<string>)

  /** `loginSchema`: an email address and a password of at least 6 characters. */
  function Validate(v: Fields, isEmail: string -> bool): (e: Errors)
    ensures e == Errors(None, None) <==> isEmail(v.email) && |v.password| >= 6
    ensures !isEmail(v.email) ==> e.email == Some("Please enter a valid email address")
    ensures |v.password| < 6 ==> e.password == Some("Password must be at least 6 characters")
    ensures e.email.None? <==> isEmail(v.email)
    ensures e.password.None? <==> |v.password| >= 6
  {
    Errors(Schema.Email(v.email, isEmail, "Please enter a valid email address"),
           Schema.Min(v.password, 6, "Password must be at least 6 characters"))
  }

  const FailureText := "Failed to login. Please check your credentials."

  class Login {
    const auth: AuthProvider
    var error: Option<string>
    var isLoading: bool

    constructor(auth: AuthProvider)
      ensures this.auth == auth && error == None && !isLoading
    {
      this.auth := auth;
      error := None;
      isLoading := false;
    }

    /** `onSubmit`: the error is cleared and `login` awaited; what it throws is shown as is
        when it is a string and as the fixed text otherwise. Loading ends either way. */
    method OnSubmit(outcome: Settled)
      requires AuthService.ReadableRejection(outcome)
      modifies this, auth, auth.browser
      ensures !isLoading && !auth.isLoading && auth.browser.path == old(auth.browser.path)
      ensures var r := AuthService.Login(outcome);
              r.Authenticated? ==>
                && error == None && auth.IsAuthenticated() && auth.user == Prop(r.response, "user")
                && auth.browser.token == Some(ToJsString(Prop(r.response, "token")))
                && auth.browser.toasts == old(auth.browser.toasts) + [Toast(SuccessToast, "Login successful!")]
      ensures var r := AuthService.Login(outcome);
              r.AuthFailed? ==>
                && error == Some(FailureText)
                && auth.user == old(auth.user) && auth.browser.token == old(auth.browser.token)
                && auth.browser.toasts == old(auth.browser.toasts) + [Toast(ErrorToast, r.message)]
    {
      isLoading := true;
      error := None;
      var thrown := auth.Login(outcome);
      if thrown.Some? {
        error := Some(CaughtText(thrown.value, FailureText));
      }
      isLoading := false;
    }
  }

  /** The session rethrows an `Error` object, never a string, so the page never shows the
      service's own message, whatever it is. */
  lemma FailureAlwaysShowsFixedText(message: string)
    ensures CaughtText(ErrorObject(message), FailureText) == FailureText
  {
  }
}
