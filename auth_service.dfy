/** Register and login (src/services/authService.ts): each posts to its endpoint, checks the
    shape of what the gateway returned, and turns every failure into an `Error` whose message
    is chosen by a first-truthy chain. The call itself is a parameter: the settled promise of
    the gateway. */
module AuthService {
  import opened Values
  import opened Gateway

  /** How `register` and `login` end: resolved with the response as received, or rejected
      with an `Error` carrying `message`. */
  datatype AuthResult = Authenticated(response: Value) | AuthFailed(message: string)

  const EmptyResponse := "Empty response from server"
  const InvalidStructure := "Invalid response structure from server"
  const RegisterFallback := "Registration failed"
  const LoginFallback := "Login failed"

  function RegisterRequest(userData: Value): (r: HttpRequest)
    ensures r.verb == POST && r.url == "/auth/register" && r.body == Some(userData)
  {
    HttpRequest(POST, "/auth/register", Some(userData))
  }

  function LoginRequest(credentials: Value): (r: HttpRequest)
    ensures r.verb == POST && r.url == "/auth/login" && r.body == Some(credentials)
  {
    HttpRequest(POST, "/auth/login", Some(credentials))
  }

  /** A response has the expected structure when its `token` and its `user` are truthy. */
  predicate WellFormed(response: Value) {
    Truthy(Prop(response, "token")) && Truthy(Prop(response, "user"))
  }

  /** What reaches the `catch` block, if anything: the gateway's rejection reason, or the
      `Error` thrown by one of the two structure checks. */
  function Caught(outcome: Settled): (r: Option<Value>)
    ensures r.None? <==> outcome.Fulfilled? && WellFormed(outcome.value)
    ensures outcome.Rejected? ==> r == Some(outcome.reason)
    ensures outcome.Fulfilled? && !Truthy(outcome.value) ==> r == Some(ErrorObject(EmptyResponse))
    ensures outcome.Fulfilled? && Truthy(outcome.value) && !WellFormed(outcome.value) ==>
              r == Some(ErrorObject(InvalidStructure))
  {
    match outcome
    case Rejected(reason) => Some(reason)
    case Fulfilled(response) =>
      if !Truthy(response) then Some(ErrorObject(EmptyResponse))
      else if !WellFormed(response) then Some(ErrorObject(InvalidStructure))
      else None
  }

  /** Whether the `catch` block can read the rejection reason: `error.response` throws a
      TypeError on `null` and `undefined`. The gateway never rejects with either
      (`GatewayRejectionIsReadable`). */
  predicate ReadableRejection(outcome: Settled) {
    outcome.Rejected? ==> !outcome.reason.Null? && !outcome.reason.Undefined?
  }

  /** `new Error(error.response?.data?.message || error.message || fallback).message`: the
      server's message when truthy, else the caught value's own message when truthy, else
      the fallback text. */
  function ErrorMessage(caught: Value, fallback: string): (r: string)
    requires !caught.Null? && !caught.Undefined?
    ensures var server := Prop(Prop(Prop(caught, "response"), "data"), "message");
            && (Truthy(server) ==> r == ToJsString(server))
            && (!Truthy(server) && Truthy(Prop(caught, "message")) ==> r == ToJsString(Prop(caught, "message")))
            && (!Truthy(server) && !Truthy(Prop(caught, "message")) ==> r == fallback)
  {
    var server := Prop(Prop(Prop(caught, "response"), "data"), "message");
    ToJsString(Or(Or(server, Prop(caught, "message")), Str(fallback)))
  }

  /** The body shared by `register` and `login`, which differ only in endpoint and
      fallback text. */
  function Settle(outcome: Settled, fallback: string): (r: AuthResult)
    requires ReadableRejection(outcome)
    ensures r.Authenticated? <==> outcome.Fulfilled? && WellFormed(outcome.value)
    ensures r.Authenticated? ==> r.response == outcome.value
    ensures r.AuthFailed? ==> r.message == ErrorMessage(Caught(outcome).value, fallback)
  {
    match Caught(outcome)
    case None => Authenticated(outcome.value)
    case Some(error) => AuthFailed(ErrorMessage(error, fallback))
  }

  /** `authService.register`, given how the POST to /auth/register settled. */
  function Register(outcome: Settled): (r: AuthResult)
    requires ReadableRejection(outcome)
    ensures r.Authenticated? <==> outcome.Fulfilled? && WellFormed(outcome.value)
    ensures r.Authenticated? ==> r.response == outcome.value
    ensures outcome.Fulfilled? && !Truthy(outcome.value) ==> r == AuthFailed(EmptyResponse)
    ensures outcome.Fulfilled? && Truthy(outcome.value) && !WellFormed(outcome.value) ==>
              r == AuthFailed(InvalidStructure)
    ensures outcome.Rejected? ==> r == AuthFailed(ErrorMessage(outcome.reason, RegisterFallback))
  {
    Settle(outcome, RegisterFallback)
  }

  /** `authService.login`, given how the POST to /auth/login settled. */
  function Login(outcome: Settled): (r: AuthResult)
    requires ReadableRejection(outcome)
    ensures r.Authenticated? <==> outcome.Fulfilled? && WellFormed(outcome.value)
    ensures r.Authenticated? ==> r.response == outcome.value
    ensures outcome.Fulfilled? && !Truthy(outcome.value) ==> r == AuthFailed(EmptyResponse)
    ensures outcome.Fulfilled? && Truthy(outcome.value) && !WellFormed(outcome.value) ==>
              r == AuthFailed(InvalidStructure)
    ensures outcome.Rejected? ==> r == AuthFailed(ErrorMessage(outcome.reason, LoginFallback))
  {
    Settle(outcome, LoginFallback)
  }

  /** The gateway's rejection reason is always truthy, so the services can read it. */
  lemma GatewayRejectionIsReadable(e: HttpError)
    ensures ReadableRejection(Rejected(RejectionReason(e)))
  {
  }

  /** The gateway rejects with a bare value (its chosen message string), which has neither
      `response` nor `message`: the server's text is lost and the fallback is shown. */
  lemma GatewayRejectionBecomesFallback(s: string)
    ensures Register(Rejected(Str(s))) == AuthFailed(RegisterFallback)
    ensures Login(Rejected(Str(s))) == AuthFailed(LoginFallback)
  {
  }

  /** The structural errors keep their own text, distinct from both fallbacks, so a caller
      can tell a malformed response from a failed call. */
  lemma StructuralErrorsDistinct()
    ensures EmptyResponse != InvalidStructure
    ensures EmptyResponse !in {RegisterFallback, LoginFallback}
    ensures InvalidStructure !in {RegisterFallback, LoginFallback}
  {
  }

  /** Register and login accept exactly the same responses and produce the same message,
      except where the fallback text is used. */
  lemma RegisterMatchesLogin(outcome: Settled)
    requires ReadableRejection(outcome)
    ensures Register(outcome).Authenticated? <==> Login(outcome).Authenticated?
    ensures Register(outcome) != Login(outcome) ==>
              Register(outcome) == AuthFailed(RegisterFallback) && Login(outcome) == AuthFailed(LoginFallback)
  {
  }
}
