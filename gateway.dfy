/** The HTTP gateway (src/services/api.ts): the response normaliser `transformData`, the
    request interceptor that attaches the bearer token, and the error interceptor with its
    session-expiry policy. The axios transport itself is not modelled: a request is a value,
    and what came back is passed in as a settled promise. */
module Gateway {
  import opened Values
  import opened Crypto

  datatype Method = GET | POST | PUT | DELETE

  /** One REST call: method, path relative to the API base URL, and JSON body. */
  datatype HttpRequest = HttpRequest(verb: Method, url: string, body: Option<Value>)

  /** How a gateway call settled: with the normalised body, or rejected with a reason. */
  datatype Settled = Fulfilled(value: Value) | Rejected(reason: Value)

  /** A failed request as axios reports it: the server's response, if one came, and the
      transport-level message. */
  datatype HttpResponse = HttpResponse(status: int, data: Value)
  datatype HttpError = HttpError(response: Option<HttpResponse>, message: Value)

  // ---------------------------------------------------------------------------------
  // Response normaliser
  // ---------------------------------------------------------------------------------

  /** `transformData`. Falsy values and scalars come back unchanged; arrays are mapped; an
      object with an `_id` key (a document) is rewritten by `Document`; any other object has
      each of its values normalised. */
  function TransformData(c: Cipher, data: Value): Value
    decreases data
  {
    if !Truthy(data) then data
    else
      match data
      case Arr(items) => Arr(seq(|items|, i requires 0 <= i < |items| => TransformData(c, items[i])))
      case Obj(f) =>
        if "_id" in f then Document(c, f)
        else Obj(map k | k in f :: TransformData(c, f[k]))
      case _ => data
  }

  /** `const { _id, __v, ...rest } = data; const transformed = { id: _id, ...rest }`, then
      `decryptUserFields` when the result has an `email` key. The fields in `rest` are
      copied as they are, without being normalised, and an `id` in `rest` is spread after
      `id: _id` and so wins. */
  function Document(c: Cipher, f: map<string, Value>): Value
    requires "_id" in f
  {
    var transformed := map["id" := f["_id"]] + (f - {"_id", "__v"});
    if "email" in transformed then DecryptUserFields(c, Obj(transformed)) else Obj(transformed)
  }

  /** No object anywhere in `v` carries an `_id` key. */
  predicate Clean(v: Value)
    decreases v
  {
    match v
    case Arr(items) => forall i :: 0 <= i < |items| ==> Clean(items[i])
    case Obj(f) => "_id" !in f && forall k :: k in f ==> Clean(f[k])
    case _ => true
  }

  /** No document in `v` holds another document: every field of every object with an `_id`
      key is `Clean`. */
  predicate Flat(v: Value)
    decreases v
  {
    match v
    case Arr(items) => forall i :: 0 <= i < |items| ==> Flat(items[i])
    case Obj(f) =>
      if "_id" in f then forall k :: k in f ==> Clean(f[k])
      else forall k :: k in f ==> Flat(f[k])
    case _ => true
  }

  /** Falsy values and every value that is neither an array nor an object are returned
      unchanged. */
  lemma TransformScalar(c: Cipher, v: Value)
    requires !Truthy(v) || !(v.Arr? || v.Obj?)
    ensures TransformData(c, v) == v
  {
  }

  /** An array is normalised element by element: same length, same order. */
  lemma TransformArray(c: Cipher, items: seq<Value>)
    ensures TransformData(c, Arr(items)).Arr?
    ensures |TransformData(c, Arr(items)).items| == |items|
    ensures forall i :: 0 <= i < |items| ==> TransformData(c, Arr(items)).items[i] == TransformData(c, items[i])
  {
  }

  /** A document loses `_id` and `__v` and gains `id`, whose value is `_id`'s unless the
      document already had an `id`; its other fields are copied verbatim, except a truthy
      `email`, which is decrypted. */
  lemma TransformDocument(c: Cipher, f: map<string, Value>)
    requires "_id" in f
    ensures TransformData(c, Obj(f)).Obj?
    ensures TransformData(c, Obj(f)).fields.Keys == (f.Keys - {"_id", "__v"}) + {"id"}
    ensures TransformData(c, Obj(f)).fields["id"] == if "id" in f then f["id"] else f["_id"]
    ensures forall k :: k in f && k !in {"_id", "__v", "id", "email"} ==> TransformData(c, Obj(f)).fields[k] == f[k]
    ensures "email" in f ==>
      TransformData(c, Obj(f)).fields["email"] == if Truthy(f["email"]) then DecryptField(c, f["email"]) else f["email"]
  {
    var t := map["id" := f["_id"]] + (f - {"_id", "__v"});
    assert t.Keys == (f.Keys - {"_id", "__v"}) + {"id"};
    if "email" in t {
      assert Spread(Obj(t)) == t;
    }
  }

  /** An object without `_id` keeps exactly its keys, each value normalised; in particular
      its `email`, when a string, is never decrypted. */
  lemma TransformPlainObject(c: Cipher, f: map<string, Value>)
    requires "_id" !in f
    ensures TransformData(c, Obj(f)).Obj?
    ensures TransformData(c, Obj(f)).fields.Keys == f.Keys
    ensures forall k :: k in f ==> TransformData(c, Obj(f)).fields[k] == TransformData(c, f[k])
    ensures "email" in f && f["email"].Str? ==> TransformData(c, Obj(f)).fields["email"] == f["email"]
  {
  }

  /** A value without documents is a fixed point of the normaliser. */
  lemma {:induction false} TransformClean(c: Cipher, v: Value)
    requires Clean(v)
    ensures TransformData(c, v) == v
    decreases v
  {
    if Truthy(v) {
      match v
      case Arr(items) =>
        forall i | 0 <= i < |items| ensures TransformData(c, items[i]) == items[i] {
          TransformClean(c, items[i]);
        }
        assert TransformData(c, v).items == items;
      case Obj(f) =>
        forall k | k in f ensures TransformData(c, f[k]) == f[k] {
          TransformClean(c, f[k]);
        }
        assert TransformData(c, v).fields == f;
      case _ =>
    }
  }

  /** When no document holds another, the normalised value carries no `_id` anywhere. */
  lemma {:induction false} TransformFlatIsClean(c: Cipher, v: Value)
    requires Flat(v)
    ensures Clean(TransformData(c, v))
    decreases v
  {
    if Truthy(v) {
      match v
      case Arr(items) =>
        forall i | 0 <= i < |items| ensures Clean(TransformData(c, items[i])) {
          TransformFlatIsClean(c, items[i]);
        }
      case Obj(f) =>
        if "_id" in f {
          var t := map["id" := f["_id"]] + (f - {"_id", "__v"});
          assert forall k :: k in t ==> Clean(t[k]);
          if "email" in t {
            var e := t["email"];
            assert Clean(if Truthy(e) then DecryptField(c, e) else e);
            assert Spread(Obj(t)) == t;
          }
        } else {
          forall k | k in f ensures Clean(TransformData(c, f[k])) {
            TransformFlatIsClean(c, f[k]);
          }
        }
      case _ =>
    }
  }

  /** Normalising twice is normalising once, for values in which no document holds
      another. */
  lemma TransformIdempotentOnFlat(c: Cipher, v: Value)
    requires Flat(v)
    ensures TransformData(c, TransformData(c, v)) == TransformData(c, v)
  {
    TransformFlatIsClean(c, v);
    TransformClean(c, TransformData(c, v));
  }

  /** A document nested in a document keeps its `_id`, so the normaliser is not idempotent
      in general: a second pass rewrites the nested document. */
  lemma NestedDocumentNotNormalised(c: Cipher)
    ensures var inner := Obj(map["_id" := Str("p1")]);
            var task := Obj(map["_id" := Str("t1"), "project" := inner]);
            && TransformData(c, task).fields["project"] == inner
            && TransformData(c, TransformData(c, task)) != TransformData(c, task)
  {
    var inner := Obj(map["_id" := Str("p1")]);
    var task := Obj(map["_id" := Str("t1"), "project" := inner]);
    TransformDocument(c, task.fields);
    var once := TransformData(c, task);
    assert "_id" !in once.fields;
    TransformPlainObject(c, once.fields);
    TransformDocument(c, inner.fields);
    assert TransformData(c, once).fields["project"] != inner;
  }

  // ---------------------------------------------------------------------------------
  // Browser state touched by the gateway and the session
  // ---------------------------------------------------------------------------------

  datatype ToastKind = SuccessToast | ErrorToast | InfoToast
  datatype Toast = Toast(kind: ToastKind, text: string)

  const SessionExpiredToast := Toast(ErrorToast, "Your session has expired. Please log in again.")

  /** The browser state the client reads and writes: localStorage's "token" entry,
      `window.location.pathname`, the toasts shown on the current page, in order, and the
      navigation requested by assigning `window.location.href`, which takes effect only when
      the new page loads. */
  class Browser {
    var token: Option<string>
    var path: string
    var toasts: seq<Toast>
    var navigatingTo: Option<string>

    constructor(token: Option<string>, path: string)
      ensures this.token == token && this.path == path && toasts == [] && navigatingTo == None
    {
      this.token := token;
      this.path := path;
      toasts := [];
      navigatingTo := None;
    }

    /** The requested page loads: the pathname becomes its path and the old page's toasts
        are gone; local storage survives. Without a pending navigation nothing happens. */
    method CommitNavigation()
      modifies this
      ensures token == old(token) && navigatingTo == None
      ensures old(navigatingTo).Some? ==> path == old(navigatingTo).value && toasts == []
      ensures old(navigatingTo).None? ==> path == old(path) && toasts == old(toasts)
    {
      if navigatingTo.Some? {
        path := navigatingTo.value;
        toasts := [];
        navigatingTo := None;
      }
    }

    /** `localStorage.getItem("token")`: the stored string, or `null`. */
    function StoredToken(): Value
      reads this
    {
      if token.Some? then Str(token.value) else Null
    }
  }

  // ---------------------------------------------------------------------------------
  // Request interceptor
  // ---------------------------------------------------------------------------------

  /** An outgoing axios request configuration; only its headers matter here. */
  class RequestConfig {
    var headers: map<string, string>

    constructor(headers: map<string, string>)
      ensures this.headers == headers
    {
      this.headers := headers;
    }
  }

  /** The request interceptor: with a truthy stored token the configuration gets
      `Authorization: Bearer <token>`, otherwise it is returned untouched. */
  method InterceptRequest(b: Browser, config: RequestConfig) returns (r: RequestConfig)
    modifies config
    ensures r == config
    ensures Truthy(b.StoredToken()) ==>
      config.headers == old(config.headers)["Authorization" := "Bearer " + b.token.value]
    ensures !Truthy(b.StoredToken()) ==> config.headers == old(config.headers)
  {
    var token := b.StoredToken();
    if Truthy(token) {
      config.headers := config.headers["Authorization" := "Bearer " + token.s];
    }
    r := config;
  }

  // ---------------------------------------------------------------------------------
  // Error interceptor
  // ---------------------------------------------------------------------------------

  /** `error.response?.data?.message`. */
  function ServerMessage(e: HttpError): Value {
    if e.response.Some? then Prop(e.response.value.data, "message") else Undefined
  }

  /** The value every failed request rejects with: the first truthy of the server's
      message, the transport message and "Something went wrong". */
  function RejectionReason(e: HttpError): (r: Value)
    ensures Truthy(r)
    ensures Truthy(ServerMessage(e)) ==> r == ServerMessage(e)
    ensures !Truthy(ServerMessage(e)) && Truthy(e.message) ==> r == e.message
    ensures !Truthy(ServerMessage(e)) && !Truthy(e.message) ==> r == Str("Something went wrong")
  {
    Or(Or(ServerMessage(e), e.message), Str("Something went wrong"))
  }

  predicate Unauthorized(e: HttpError) {
    e.response.Some? && e.response.value.status == 401
  }

  /** The error interceptor. A 401 always removes the stored token; when the current
      pathname is not /login it requests the navigation to /login and shows the expiry toast.
      The pathname itself is unchanged until the navigation commits. Any other failure leaves
      the browser state alone. */
  method InterceptError(b: Browser, e: HttpError) returns (reason: Value)
    modifies b
    ensures reason == RejectionReason(e)
    ensures b.path == old(b.path)
    ensures Unauthorized(e) ==> b.token == None
    ensures Unauthorized(e) && old(b.path) != "/login" ==>
      b.navigatingTo == Some("/login") && b.toasts == old(b.toasts) + [SessionExpiredToast]
    ensures Unauthorized(e) && old(b.path) == "/login" ==>
      b.navigatingTo == old(b.navigatingTo) && b.toasts == old(b.toasts)
    ensures !Unauthorized(e) ==>
      b.token == old(b.token) && b.navigatingTo == old(b.navigatingTo) && b.toasts == old(b.toasts)
  {
    reason := RejectionReason(e);
    if Unauthorized(e) {
      b.token := None;
      if b.path != "/login" {
        b.navigatingTo := Some("/login");
        b.toasts := b.toasts + [SessionExpiredToast];
      }
    }
  }

  /** Two expired-session responses handled before the redirect commits (the two queries of
      one page, say) both find the old pathname, so each shows the expiry toast. */
  method ExpiryNoticePerPendingResponse(b: Browser, e1: HttpError, e2: HttpError)
    requires Unauthorized(e1) && Unauthorized(e2)
    modifies b
    ensures b.token == None && b.path == old(b.path)
    ensures old(b.path) != "/login" ==>
      b.navigatingTo == Some("/login") && b.toasts == old(b.toasts) + [SessionExpiredToast, SessionExpiredToast]
    ensures old(b.path) == "/login" ==> b.navigatingTo == old(b.navigatingTo) && b.toasts == old(b.toasts)
  {
    var _ := InterceptError(b, e1);
    var _ := InterceptError(b, e2);
  }

  /** Once the redirect has committed, a further expired-session response finds the browser
      on /login and shows nothing: the login page holds no expiry toast. */
  method NoExpiryNoticeAfterRedirect(b: Browser, e1: HttpError, e2: HttpError)
    requires Unauthorized(e1) && Unauthorized(e2)
    requires b.path != "/login"
    modifies b
    ensures b.token == None && b.path == "/login" && b.navigatingTo == None
    ensures b.toasts == []
  {
    var _ := InterceptError(b, e1);
    b.CommitNavigation();
    var _ := InterceptError(b, e2);
  }
}
