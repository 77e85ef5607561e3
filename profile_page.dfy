/** The profile page of src/pages/profile/Profile.tsx: its schema and defaults, and
    `onSubmit`, which sends the update and merges the returned user into the session. The
    update goes through src/services/userService.ts, which decrypts the response's fields. */
module ProfilePage {
  import opened Values
  import opened Crypto
  import opened Gateway
  import opened AuthContext
  import Schema

  datatype Fields = Fields(name: string, country: string)

  datatype Errors = Errors(name: Option<string>, country: Option<string>)

  /** `profileSchema`: name and country of at least 2 characters. */
  function Validate(v: Fields): (e: Errors)
    ensures e == Errors(None, None) <==> |v.name| >= 2 && |v.country| >= 2
    ensures |v.name| < 2 ==> e.name == Some("Name must be at least 2 characters")
    ensures |v.country| < 2 ==> e.country == Some("Country must be at least 2 characters")
    ensures e.name.None? <==> |v.name| >= 2
    ensures e.country.None? <==> |v.country| >= 2
  {
    Errors(Schema.Min(v.name, 2, "Name must be at least 2 characters"),
           Schema.Min(v.country, 2, "Country must be at least 2 characters"))
  }

  /** `user?.name || ""`, as the text the input shows. */
  function FieldOrEmpty(user: Value, key: string): (r: string)
    ensures Prop(user, key).Str? ==> r == Prop(user, key).s
    ensures !Truthy(Prop(user, key)) ==> r == ""
  {
    ToJsString(Or(Prop(user, key), Str("")))
  }

  /** The default values: the current user's name and country, or empty. */
  function Defaults(user: Value): (d: Fields)
    ensures Prop(user, "name").Str? ==> d.name == Prop(user, "name").s
    ensures Prop(user, "country").Str? ==> d.country == Prop(user, "country").s
    ensures !Truthy(Prop(user, "name")) ==> d.name == ""
    ensures !Truthy(Prop(user, "country")) ==> d.country == ""
    ensures !Truthy(user) ==> d == Fields("", "")
    ensures d == Fields(FieldOrEmpty(user, "name"), FieldOrEmpty(user, "country"))
  {
    Fields(FieldOrEmpty(user, "name"), FieldOrEmpty(user, "country"))
  }

  /** The page renders its form only for a signed-in user, starting from the defaults. */
  function Render(user: Value): (form: Option<Fields>)
    ensures form.None? <==> !Truthy(user)
    ensures form.Some? ==> form.value == Defaults(user)
  {
    if Truthy(user) then Some(Defaults(user)) else None
  }

  /** `userService.updateProfile`: the gateway's settled outcome with the user fields of a
      response decrypted. */
  function UpdateProfile(c: Cipher, outcome: Settled): (r: Settled)
    ensures outcome.Rejected? ==> r == outcome
    ensures outcome.Fulfilled? ==> r == Fulfilled(DecryptUserFields(c, outcome.value))
  {
    match outcome
    case Rejected(_) => outcome
    case Fulfilled(response) => Fulfilled(DecryptUserFields(c, response))
  }

  /** Whether the update reaches `updateUser`: it fails when the call rejects, or when the
      response is `null` or `undefined` and reading its `data` throws. */
  predicate Updated(response: Settled) {
    response.Fulfilled? && !response.value.Null? && !response.value.Undefined?
  }

  const SuccessText := "Profile updated successfully"
  const FailureText := "Failed to update profile. Please try again."

  /** The error shown for a failed update: the gateway's string reason, or the fixed text. */
  function FailureMessage(response: Settled): (m: string)
    requires !Updated(response)
    ensures response.Rejected? && response.reason.Str? ==> m == response.reason.s
    ensures response.Fulfilled? || !response.reason.Str? ==> m == FailureText
  {
    match response
    case Rejected(reason) => CaughtText(reason, FailureText)
    case Fulfilled(_) => FailureText
  }

  /** The gateway rejects with the string it chose as reason, which the page shows. */
  lemma GatewayReasonShown(e: HttpError)
    ensures !Updated(Rejected(RejectionReason(e))) && RejectionReason(e).Str? ==>
              FailureMessage(Rejected(RejectionReason(e))) == RejectionReason(e).s
  {
  }

  class Profile {
    const auth: AuthProvider
    var isLoading: bool
    var successMessage: Option<string>
    var errorMessage: Option<string>

    constructor(auth: AuthProvider)
      ensures this.auth == auth && !isLoading && successMessage == None && errorMessage == None
    {
      this.auth := auth;
      isLoading := false;
      successMessage := None;
      errorMessage := None;
    }

    /** `onSubmit`: both messages are cleared and the update is sent through
        `userService.updateProfile`, given how the gateway's call settled; on success the
        response's `data` is merged into the session's user and the success message set, on
        failure the error message is. Loading ends either way. */
    method OnSubmit(c: Cipher, outcome: Settled)
      modifies this, auth
      ensures !isLoading && auth.isLoading == old(auth.isLoading)
      ensures var response := UpdateProfile(c, outcome);
              Updated(response) ==>
                && successMessage == Some(SuccessText) && errorMessage == None
                && (Truthy(old(auth.user)) ==> auth.user == Merged(old(auth.user), Prop(response.value, "data")))
                && (!Truthy(old(auth.user)) ==> auth.user == old(auth.user))
      ensures var response := UpdateProfile(c, outcome);
              !Updated(response) ==>
                && successMessage == None && errorMessage == Some(FailureMessage(response))
                && auth.user == old(auth.user)
      ensures outcome.Rejected? ==> errorMessage == Some(FailureMessage(outcome))
    {
      var response := UpdateProfile(c, outcome);
      isLoading := true;
      successMessage := None;
      errorMessage := None;
      if Updated(response) {
        var updatedUser := Prop(response.value, "data");
        auth.UpdateUser(updatedUser);
        successMessage := Some(SuccessText);
      } else {
        errorMessage := Some(FailureMessage(response));
      }
      isLoading := false;
    }
  }
}
