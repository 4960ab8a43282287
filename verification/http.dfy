/**
  The HTTP client's interceptors (src/config/axios.ts). Every outgoing request
  gets the stored token as a bearer credential; every reply is sorted into a
  resolution or a rejection by its business code, and an HTTP 403 wipes the
  stored session. The interceptors see durable storage only, never the
  session store's in-memory fields.
 */
module Http {
  import opened Common
  import opened ApiTypes
  import opened LocalStorage

  datatype Method = Get | Post

  datatype FormValue = FileValue(fileName: string) | TextValue(text: string)

  datatype FormField = FormField(name: string, value: FormValue)

  /** What a request carries: nothing, a JSON payload, or multipart form fields. */
  datatype Body =
    | NoBody
    | CredentialsBody(credentials: LoginCredentials)
    | RegisterBody(registration: RegisterDto)
    | ProfileBody(profile: UserInfo)
    | FormBody(fields: seq<FormField>)

  datatype Request = Request(verb: Method, url: string, headers: map<string, string>, body: Body)

  const AuthorizationHeader := "Authorization"
  const ContentTypeHeader := "Content-Type"
  const BearerPrefix := "Bearer "

  /** The headers the client instance puts on every request. */
  const DefaultHeaders: map<string, string> := map[ContentTypeHeader := "application/json"]

  // ----- request interceptor -----

  /**
    Adds `Authorization: Bearer <token>` when storage holds a non-empty token;
    otherwise hands the request back as it came.
   */
  function AttachBearer(req: Request, storage: Storage): (out: Request)
    ensures out.verb == req.verb && out.url == req.url && out.body == req.body
    ensures forall h :: h != AuthorizationHeader ==>
      (h in out.headers <==> h in req.headers) && (h in req.headers ==> out.headers[h] == req.headers[h])
    ensures StoredToken(storage) != "" ==>
      AuthorizationHeader in out.headers && out.headers[AuthorizationHeader] == BearerPrefix + StoredToken(storage)
    ensures StoredToken(storage) == "" ==> out == req
  {
    var token := StoredToken(storage);
    if token != "" then req.(headers := req.headers[AuthorizationHeader := BearerPrefix + token])
    else req
  }

  /**
    The interceptor never invents a credential: a request built without one
    carries an Authorization header exactly when storage holds a token, and
    the header's value with the `Bearer ` prefix removed is that token.
   */
  lemma BearerCarriesStoredToken(req: Request, storage: Storage)
    requires AuthorizationHeader !in req.headers
    ensures var out := AttachBearer(req, storage);
      && (AuthorizationHeader in out.headers <==> StoredToken(storage) != "")
      && (AuthorizationHeader in out.headers ==>
            var v := out.headers[AuthorizationHeader];
            |v| > |BearerPrefix| && v[..|BearerPrefix|] == BearerPrefix
            && v[|BearerPrefix|..] == GetItem(storage, TokenKey).value)
  {
  }

  // ----- response interceptor -----

  /**
    What reaches the response interceptor: a delivered 2xx reply with its
    envelope, or a failure with the HTTP status when there was a response.
   */
  datatype Reply<T> = Delivered(body: ApiResponse<T>) | Failed(status: Option<int>)

  /** Why a call was rejected: a non-success business code, or a transport error. */
  datatype Rejection = BusinessRejection(code: int, msg: string) | TransportRejection(status: Option<int>)

  /** What the caller of an API function observes once the promise settles. */
  datatype Settled<T> = Resolved(response: ApiResponse<T>) | Rejected(reason: Rejection)

  /** The interceptor's verdict, the storage it leaves, and the navigation it starts, if any. */
  datatype Intercepted<T> = Intercepted(settled: Settled<T>, storage: Storage, navigation: Option<string>)

  const ForbiddenStatus := 403

  /** Where an expired session is sent. */
  const SessionExpiredPath := "/login"

  predicate IsForbidden<T>(reply: Reply<T>)
  {
    reply.Failed? && reply.status == Some(ForbiddenStatus)
  }

  /** Removes exactly the two session keys. */
  function ClearCredentials(s: Storage): (r: Storage)
    ensures r.Keys == s.Keys - {TokenKey, UserInfoKey}
    ensures forall k :: k in r ==> r[k] == s[k]
    ensures StoredToken(r) == ""
  {
    RemoveItem(RemoveItem(s, TokenKey), UserInfoKey)
  }

  /** Wiping the session twice leaves the same storage as wiping it once. */
  lemma ClearCredentialsIdempotent(s: Storage)
    ensures ClearCredentials(ClearCredentials(s)) == ClearCredentials(s)
  {
  }

  /**
    The response interceptor. `success` is the business code meaning success
    (`BizErrorCode.SUCCESS`, whose value lives outside this model).
   */
  function InterceptResponse<T>(reply: Reply<T>, storage: Storage, success: int): (r: Intercepted<T>)
    ensures r.settled.Resolved? <==> reply.Delivered? && reply.body.code == success
    ensures r.settled.Resolved? ==> r.settled.response == reply.body
    ensures reply.Delivered? && reply.body.code != success ==>
      r.settled == Rejected(BusinessRejection(reply.body.code, reply.body.msg))
    ensures reply.Failed? ==> r.settled == Rejected(TransportRejection(reply.status))
    ensures IsForbidden(reply) ==> r.storage == ClearCredentials(storage)
    ensures !IsForbidden(reply) ==> r.storage == storage
    ensures r.navigation.Some? <==> IsForbidden(reply)
    ensures r.navigation.Some? ==> r.navigation.value == SessionExpiredPath
  {
    match reply
    case Delivered(body) =>
      if body.code == success then Intercepted(Resolved(body), storage, None)
      else Intercepted(Rejected(BusinessRejection(body.code, body.msg)), storage, None)
    case Failed(status) =>
      if status == Some(ForbiddenStatus) then
        Intercepted(Rejected(TransportRejection(status)), ClearCredentials(storage), Some(SessionExpiredPath))
      else Intercepted(Rejected(TransportRejection(status)), storage, None)
  }

  /** After a 403 the stored session is gone, so the next request goes out without a credential. */
  lemma NoBearerAfterForbidden<T>(reply: Reply<T>, storage: Storage, success: int, next: Request)
    requires IsForbidden(reply)
    ensures AttachBearer(next, InterceptResponse(reply, storage, success).storage) == next
  {
  }

  /** A second 403 in a row changes storage no further. */
  lemma ForbiddenWipeIdempotent<T>(reply: Reply<T>, storage: Storage, success: int)
    requires IsForbidden(reply)
    ensures var once := InterceptResponse(reply, storage, success).storage;
      InterceptResponse(reply, once, success).storage == once
  {
  }
}
