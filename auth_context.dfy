/** The session held by `AuthProvider` (src/context/AuthContext.tsx): the current user, the
    loading flag, and the token in local storage. Each operation takes the outcome of the
    service call it awaits as a parameter. */
module AuthContext {
  import opened Values
  import opened Gateway
  import AuthService

  /** The user `initAuth` installs from the profile call, or `None` when it reaches its
      `catch`: a rejected call, or a `null`/`undefined` response whose `.data` throws. The
      response's `data` is preferred when truthy. */
  function ProfileUser(profile: Settled): (r: Option<Value>)
    ensures r.Some? <==> profile.Fulfilled? && !profile.value.Null? && !profile.value.Undefined?
    ensures r.Some? && Truthy(Prop(profile.value, "data")) ==> r.value == Prop(profile.value, "data")
    ensures r.Some? && !Truthy(Prop(profile.value, "data")) ==> r.value == profile.value
  {
    match profile
    case Rejected(_) => None
    case Fulfilled(response) =>
      if response.Null? || response.Undefined? then None else Some(Or(Prop(response, "data"), response))
  }

  /** `{ ...user, ...updated }`: every supplied field overrides, every other field is kept. */
  function Merged(user: Value, updated: Value): (r: Value)
    ensures r.Obj? && r.fields.Keys == Spread(user).Keys + Spread(updated).Keys
    ensures forall k :: k in Spread(updated) ==> r.fields[k] == Spread(updated)[k]
    ensures forall k :: k in Spread(user) && k !in Spread(updated) ==> r.fields[k] == Spread(user)[k]
  {
    Obj(Spread(user) + Spread(updated))
  }

  const LoggedOutToast := Toast(InfoToast, "You have been logged out")

  class AuthProvider {
    const browser: Browser
    var user: Value
    var isLoading: bool

    /** The provider starts with no user and loading. */
    constructor(browser: Browser)
      ensures this.browser == browser && user == Null && isLoading
    {
      this.browser := browser;
      user := Null;
      isLoading := true;
    }

    /** `isAuthenticated`: `!!user`. */
    predicate IsAuthenticated()
      reads this
    {
      Truthy(user)
    }

    /** `initAuth`: with a truthy stored token the profile is fetched; its user is installed,
        or, when the fetch fails, the token is removed. Loading ends in every case. */
    method InitAuth(profile: Settled)
      modifies this, browser
      ensures !isLoading
      ensures browser.path == old(browser.path) && browser.toasts == old(browser.toasts) && browser.navigatingTo == old(browser.navigatingTo)
      ensures !Truthy(old(browser.StoredToken())) ==> user == old(user) && browser.token == old(browser.token)
      ensures Truthy(old(browser.StoredToken())) && ProfileUser(profile).Some? ==>
                user == ProfileUser(profile).value && browser.token == old(browser.token)
      ensures Truthy(old(browser.StoredToken())) && ProfileUser(profile).None? ==>
                user == old(user) && browser.token == None
    {
      var token := browser.StoredToken();
      if Truthy(token) {
        var userData := ProfileUser(profile);
        if userData.Some? {
          user := userData.value;
        } else {
          browser.token := None;
        }
      }
      isLoading := false;
    }

    /** `login`: on success the response's token is stored (as a string) and its user
        installed; on failure an error toast is shown and the `Error` re-thrown (returned
        here), with token and user untouched. Loading ends either way. */
    method Login(outcome: Settled) returns (thrown: Option<Value>)
      requires AuthService.ReadableRejection(outcome)
      modifies this, browser
      ensures !isLoading && browser.path == old(browser.path) && browser.navigatingTo == old(browser.navigatingTo)
      ensures var r := AuthService.Login(outcome);
              r.Authenticated? ==>
                && thrown == None
                && user == Prop(r.response, "user") && IsAuthenticated()
                && browser.token == Some(ToJsString(Prop(r.response, "token")))
                && browser.toasts == old(browser.toasts) + [Toast(SuccessToast, "Login successful!")]
      ensures var r := AuthService.Login(outcome);
              r.AuthFailed? ==>
                && thrown == Some(ErrorObject(r.message))
                && user == old(user) && browser.token == old(browser.token)
                && browser.toasts == old(browser.toasts) + [Toast(ErrorToast, r.message)]
    {
      isLoading := true;
      var response := AuthService.Login(outcome);
      match response {
        case Authenticated(r) =>
          browser.token := Some(ToJsString(Prop(r, "token")));
          user := Prop(r, "user");
          browser.toasts := browser.toasts + [Toast(SuccessToast, "Login successful!")];
          thrown := None;
        case AuthFailed(message) =>
          browser.toasts := browser.toasts + [Toast(ErrorToast, message)];
          thrown := Some(ErrorObject(message));
      }
      isLoading := false;
    }

    /** `register`: as `login`, except that an empty error message is toasted as the fixed
        registration text. */
    method Register(outcome: Settled) returns (thrown: Option<Value>)
      requires AuthService.ReadableRejection(outcome)
      modifies this, browser
      ensures !isLoading && browser.path == old(browser.path) && browser.navigatingTo == old(browser.navigatingTo)
      ensures var r := AuthService.Register(outcome);
              r.Authenticated? ==>
                && thrown == None
                && user == Prop(r.response, "user") && IsAuthenticated()
                && browser.token == Some(ToJsString(Prop(r.response, "token")))
                && browser.toasts == old(browser.toasts) + [Toast(SuccessToast, "Registration successful!")]
      ensures var r := AuthService.Register(outcome);
              r.AuthFailed? ==>
                && thrown == Some(ErrorObject(r.message))
                && user == old(user) && browser.token == old(browser.token)
                && browser.toasts == old(browser.toasts) +
                     [Toast(ErrorToast, if r.message != "" then r.message else "Registration failed. Please try again.")]
    {
      isLoading := true;
      var response := AuthService.Register(outcome);
      match response {
        case Authenticated(r) =>
          browser.token := Some(ToJsString(Prop(r, "token")));
          user := Prop(r, "user");
          browser.toasts := browser.toasts + [Toast(SuccessToast, "Registration successful!")];
          thrown := None;
        case AuthFailed(message) =>
          var text := if message != "" then message else "Registration failed. Please try again.";
          browser.toasts := browser.toasts + [Toast(ErrorToast, text)];
          thrown := Some(ErrorObject(message));
      }
      isLoading := false;
    }

    /** `logout`: the token is removed and the user cleared. */
    method Logout()
      modifies this, browser
      ensures browser.token == None && user == Null && !IsAuthenticated()
      ensures isLoading == old(isLoading) && browser.path == old(browser.path) && browser.navigatingTo == old(browser.navigatingTo)
      ensures browser.toasts == old(browser.toasts) + [LoggedOutToast]
    {
      browser.token := None;
      user := Null;
      browser.toasts := browser.toasts + [LoggedOutToast];
    }

    /** `updateUser`: nothing happens without a user; otherwise the supplied fields are
        merged over the current ones. */
    method UpdateUser(updated: Value)
      modifies this
      ensures isLoading == old(isLoading)
      ensures !Truthy(old(user)) ==> user == old(user)
      ensures Truthy(old(user)) ==> user == Merged(old(user), updated) && IsAuthenticated()
    {
      if Truthy(user) {
        user := Merged(user, updated);
      }
    }
  }
}
