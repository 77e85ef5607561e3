/** The sign-up page of src/pages/auth/Register.tsx: its schema, and `onSubmit`, which calls
    the session's `register` and shows an error when it throws. */
module RegisterPage {
  import opened Values
  import opened Gateway
  import AuthService
  import opened AuthContext
  import Schema

  datatype Fields = Fields(name: string, email: string, password: string, country: string)

  datatype Errors = Errors(name: Option<string>, email: Option<string>, password: Option<string>, country: Option<string>)

  /** `registerSchema`: name and country of at least 2 characters, an email address, and a
      password of at least 6 characters. */
  function Validate(v: Fields, isEmail: string -> bool): (e: Errors)
    ensures e == Errors(None, None, None, None) <==>
              |v.name| >= 2 && isEmail(v.email) && |v.password| >= 6 && |v.country| >= 2
    ensures |v.name| < 2 ==> e.name == Some("Name must be at least 2 characters")
    ensures !isEmail(v.email) ==> e.email == Some("Please enter a valid email address")
    ensures |v.password| < 6 ==> e.password == Some("Password must be at least 6 characters")
    ensures |v.country| < 2 ==> e.country == Some("Country must be at least 2 characters")
    ensures e.name.None? <==> |v.name| >= 2
    ensures e.email.None? <==> isEmail(v.email)
    ensures e.password.None? <==> |v.password| >= 6
    ensures e.country.None? <==> |v.country| >= 2
  {
    Errors(Schema.Min(v.name, 2, "Name must be at least 2 characters"),
           Schema.Email(v.email, isEmail, "Please enter a valid email address"),
           Schema.Min(v.password, 6, "Password must be at least 6 characters"),
           Schema.Min(v.country, 2, "Country must be at least 2 characters"))
  }

  const FailureText := "Failed to register. Please try again."

  class Register {
    const auth: AuthProvider
    var error: Option<string>
    var isLoading: bool

    constructor(auth: AuthProvider)
      ensures this.auth == auth && error == None && !isLoading
    {
      this.auth := auth;
      error := None;
      isLoading := false;
    }

    /** `onSubmit`: the error is cleared and `register` awaited; what it throws is shown as
        is when it is a string and as the fixed text otherwise. Loading ends either way. */
    method OnSubmit(outcome: Settled)
      requires AuthService.ReadableRejection(outcome)
      modifies this, auth, auth.browser
      ensures !isLoading && !auth.isLoading && auth.browser.path == old(auth.browser.path)
      ensures var r := AuthService.Register(outcome);
              r.Authenticated? ==>
                && error == None && auth.IsAuthenticated() && auth.user == Prop(r.response, "user")
                && auth.browser.token == Some(ToJsString(Prop(r.response, "token")))
                && auth.browser.toasts == old(auth.browser.toasts) + [Toast(SuccessToast, "Registration successful!")]
      ensures var r := AuthService.Register(outcome);
              r.AuthFailed? ==>
                && error == Some(FailureText)
                && auth.user == old(auth.user) && auth.browser.token == old(auth.browser.token)
                && auth.browser.toasts == old(auth.browser.toasts) + [Toast(ErrorToast, if r.message != "" then r.message else "Registration failed. Please try again.")]
    {
      isLoading := true;
      error := None;
      var thrown := auth.Register(outcome);
      if thrown.Some? {
        error := Some(CaughtText(thrown.value, FailureText));
      }
      isLoading := false;
    }
  }

  /** The session rethrows an `Error` object, never a string, so the page never shows the
      service's own message, whatever it is. */
  lemma FailureAlwaysShowsFixedText(message: string)
    ensures CaughtText(ErrorObject(message), FailureText) == FailureText
  {
  }
}
