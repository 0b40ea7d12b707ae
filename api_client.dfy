/**
 * The HTTP client (frontend/src/services/api.ts): the request interceptor that attaches
 * the session token, the response interceptor that reacts to 401, the three-way
 * classification of failures in `handleError`, and the service wrappers built on it.
 * Transport, base URL and timeout are not modelled: a reply or a failure is an input.
 */
module ApiClient {
  import opened Wrappers
  import Thunk
  import AuthSlice

  type Headers = map<string, string>

  const Authorization := "Authorization"
  const RequestFailed := "Error en la solicitud"
  const ConnectionFailed := "No se pudo conectar con el servidor"
  /** The action type the response interceptor dispatches on a 401. */
  const LogoutActionType := "auth/logout"

  /**
   * Headers after the request interceptor: with a truthy token and a header object,
   * `Authorization` becomes `Bearer <token>` and every other header stays; otherwise
   * the headers pass through untouched.
   */
  function WithBearer(headers: Option<Headers>, token: Option<string>): (r: Option<Headers>)
    ensures r.Some? <==> headers.Some?
    ensures headers.Some? ==>
      r.value.Keys == headers.value.Keys + (if Truthy(token) then {Authorization} else {})
    ensures headers.Some? ==>
      forall name | name in headers.value && name != Authorization :: r.value[name] == headers.value[name]
    ensures headers.Some? && Truthy(token) ==> r.value[Authorization] == "Bearer " + token.value
    ensures !Truthy(token) ==> r == headers
  {
    if Truthy(token) && headers.Some? then
      Some(headers.value[Authorization := "Bearer " + token.value])
    else
      headers
  }

  /** The request configuration that axios hands to the interceptor and then sends. */
  class RequestConfig {
    var url: string
    var headers: Option<Headers>

    constructor (url: string, headers: Option<Headers>)
      ensures this.url == url && this.headers == headers
    {
      this.url := url;
      this.headers := headers;
    }
  }

  /** The request interceptor: reads the store's token and edits the config in place. */
  method OnRequest(config: RequestConfig, auth: AuthSlice.AuthStore) returns (sent: RequestConfig)
    modifies config
    ensures sent == config
    ensures config.headers == WithBearer(old(config.headers), auth.token)
    ensures config.url == old(config.url)
  {
    var token := auth.token;
    if Truthy(token) && config.headers.Some? {
      config.headers := Some(config.headers.value[Authorization := "Bearer " + token.value]);
    }
    sent := config;
  }

  /** A successful reply. */
  datatype Response<T> = Response(status: int, data: T)

  /** The part of a failed reply the client looks at: its status and the body's `message`. */
  datatype ErrorResponse = ErrorResponse(status: int, message: Option<string>)

  /** An axios failure: a reply may have come back, and the request may have been sent. */
  datatype AxiosError = AxiosError(response: Option<ErrorResponse>, requestSent: bool)

  predicate Unauthorized(err: AxiosError)
  {
    err.response.Some? && err.response.value.status == 401
  }

  /** The response interceptor's success path hands the reply on as it is. */
  function OnResponse<T>(response: Response<T>): (r: Response<T>)
    ensures r == response
  {
    response
  }

  /**
   * The response interceptor's failure path, as written: on a 401 it dispatches the bare
   * type `auth/logout` once, then rejects with the same error; nothing is retried. The
   * auth reducer matches only `auth/logout/fulfilled`, so the dispatch leaves the
   * session, and the stored token, as they were.
   */
  method OnResponseError(err: AxiosError, auth: AuthSlice.AuthStore)
    returns (dispatched: Option<string>, rejected: AxiosError)
    modifies auth
    ensures rejected == err
    ensures dispatched == if Unauthorized(err) then Some(LogoutActionType) else None
    ensures auth.user == old(auth.user) && auth.token == old(auth.token)
    ensures auth.storedToken == old(auth.storedToken)
    ensures auth.loading == old(auth.loading) && auth.error == old(auth.error)
  {
    dispatched := None;
    if Unauthorized(err) {
      dispatched := Some(LogoutActionType);
      LogoutIsUnhandled();
      auth.Dispatch(LogoutActionType);
    }
    rejected := err;
  }

  /** The type dispatched on a 401 is not one the auth reducer reacts to. */
  lemma LogoutIsUnhandled()
    ensures LogoutActionType !in AuthSlice.HandledActionTypes
  {
  }

  /**
   * As written, a 401 does not end the session: the request that follows still carries
   * the rejected token.
   */
  method UnauthorizedKeepsCredentials(err: AxiosError, auth: AuthSlice.AuthStore, next: RequestConfig)
    requires Unauthorized(err)
    requires auth.token.Some? && auth.token.value != ""
    requires next.headers.Some?
    modifies auth, next
    ensures auth.token == old(auth.token)
    ensures next.headers.Some? && Authorization in next.headers.value
    ensures next.headers.value[Authorization] == "Bearer " + old(auth.token).value
  {
    var _, _ := OnResponseError(err, auth);
    var _ := OnRequest(next, auth);
  }

  /**
   * The failure path as its comment ("expired or invalid token") intends: a 401 ends
   * the session, in the state and in storage, as the logout thunk does.
   */
  method OnResponseErrorEndingSession(err: AxiosError, auth: AuthSlice.AuthStore)
    returns (rejected: AxiosError)
    modifies auth
    ensures rejected == err
    ensures Unauthorized(err) ==>
      auth.token == None && auth.user == None && auth.storedToken == None && auth.InSync()
    ensures !Unauthorized(err) ==>
      auth.user == old(auth.user) && auth.token == old(auth.token)
      && auth.storedToken == old(auth.storedToken) && auth.error == old(auth.error)
  {
    if Unauthorized(err) {
      auth.Logout();
    }
    rejected := err;
  }

  /** After a 401 handled as intended, the next request goes out without credentials. */
  method UnauthorizedThenRequest(err: AxiosError, auth: AuthSlice.AuthStore, next: RequestConfig)
    requires Unauthorized(err)
    modifies auth, next
    ensures auth.token == None
    ensures next.headers == old(next.headers)
  {
    var _ := OnResponseErrorEndingSession(err, auth);
    var _ := OnRequest(next, auth);
  }

  /** After a successful login, every request carries the new token as a bearer credential. */
  method LoginThenRequest(reply: AuthSlice.AuthResponse, auth: AuthSlice.AuthStore, next: RequestConfig)
    requires reply.token != ""
    requires next.headers.Some?
    modifies auth, next
    ensures auth.token == Some(reply.token)
    ensures next.headers.Some? && Authorization in next.headers.value
    ensures next.headers.value[Authorization] == "Bearer " + reply.token
  {
    auth.LoginFulfilled(reply);
    var _ := OnRequest(next, auth);
  }

  /** The three mutually exclusive kinds of failure `handleError` tells apart. */
  datatype FailureKind = ServerResponded | NoResponse | NotSent

  function Classify(err: AxiosError): FailureKind
  {
    if err.response.Some? then ServerResponded
    else if err.requestSent then NoResponse
    else NotSent
  }

  /**
   * The message `handleError` throws (it never returns normally): the server's `message`
   * or the generic text when a reply came, the connectivity text when the request went
   * out unanswered, the generic text when it never left.
   */
  function HandleError(err: AxiosError): (message: string)
    ensures message != ""
    ensures Classify(err) == ServerResponded ==>
      message == Thunk.RejectionMessage(err.response.value.message, RequestFailed)
    ensures Classify(err) == NoResponse ==> message == ConnectionFailed
    ensures Classify(err) == NotSent ==> message == RequestFailed
    ensures message == ConnectionFailed ==>
      Classify(err) == NoResponse || err.response.value.message == Some(ConnectionFailed)
  {
    match err.response
    case Some(reply) => Thunk.RejectionMessage(reply.message, RequestFailed)
    case None => if err.requestSent then ConnectionFailed else RequestFailed
  }

  /** What a call made through the client yields: the reply's data, or an axios failure. */
  datatype Transport<T> = Delivered(data: T) | Broken(err: AxiosError)

  /**
   * The `statisticsService` and `reportsService` methods: the reply's `data` on success,
   * and on failure the classified message of `handleError`, never the raw error.
   */
  function ServiceCall<T>(outcome: Transport<T>): (r: Result<T, string>)
    ensures outcome.Delivered? <==> r.Success?
    ensures r.Success? ==> r.value == outcome.data
    ensures r.Failure? ==> r.error == HandleError(outcome.err) && r.error != ""
  {
    match outcome
    case Delivered(data) => Success(data)
    case Broken(err) => Failure(HandleError(err))
  }

  /** The `authService` methods: the reply's `data`, or the raw axios error unclassified. */
  function AuthServiceCall<T>(outcome: Transport<T>): (r: Result<T, AxiosError>)
    ensures outcome.Delivered? ==> r == Success(outcome.data)
    ensures outcome.Broken? ==> r == Failure(outcome.err)
  {
    match outcome
    case Delivered(data) => Success(data)
    case Broken(err) => Failure(err)
  }
}
