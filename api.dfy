/**
 * The HTTP client's two interceptors and `authService`, over the two-key
 * store (`token`, `user`) that the browser keeps across reloads. The
 * network is not modelled: every call's outcome is a parameter.
 */
module Api {
  import opened Wrappers
  import opened Roles
  import Text

  /**
   * A rejected request. `Status` carries `error.response.status` and
   * `error.response.data.message`, with "" standing for a missing or empty
   * message; `NoResponse` is a request that got no answer (`timedOut` is the
   * `ECONNABORTED` case); `Setup` is an error raised before any request left.
   */
  datatype HttpError = Status(code: int, message: string) | NoResponse(timedOut: bool) | Setup(message: string)

  predicate IsUnauthorized(e: HttpError) {
    e.Status? && e.code == 401
  }

  /** The body of a successful `POST /auth/login`. */
  datatype LoginData = LoginData(token: string, user: User)

  const BearerPrefix: string := "Bearer "

  /**
   * The request interceptor: the `Authorization` header it attaches, if any,
   * for the stored token. An empty token is falsy and attaches nothing.
   */
  function BearerHeader(token: Option<string>): (h: Option<string>)
    ensures h.Some? <==> token.Some? && token.value != ""
    ensures h.Some? ==> Text.StartsWith(h.value, BearerPrefix) && h.value[|BearerPrefix|..] == token.value
  {
    if token.Some? && token.value != "" then Some(BearerPrefix + token.value) else None
  }

  /** `localStorage`, restricted to the two keys the session uses. */
  class SessionStore {
    var token: Option<string>
    var user: Option<User>

    constructor (token: Option<string>, user: Option<User>)
      ensures this.token == token && this.user == user
    {
      this.token := token;
      this.user := user;
    }

    /** The two keys are present together or absent together. */
    predicate Paired()
      reads this
    {
      token.Some? <==> user.Some?
    }

    predicate IsEmpty()
      reads this
    {
      token.None? && user.None?
    }

    /** The header every outgoing request carries. */
    function AuthorizationHeader(): (h: Option<string>)
      reads this
      ensures h.Some? <==> token.Some? && token.value != ""
    {
      BearerHeader(token)
    }

    /**
     * The response interceptor's error path. A 401 from any endpoint removes
     * both keys and sends the browser to `/login` (`reload`); 403, 5xx,
     * timeouts and missing responses are only logged.
     */
    method RejectResponse(e: HttpError) returns (reload: bool)
      modifies this
      ensures reload <==> IsUnauthorized(e)
      ensures reload ==> IsEmpty()
      ensures !reload ==> token == old(token) && user == old(user)
    {
      reload := IsUnauthorized(e);
      if reload {
        token := None;
        user := None;
      }
    }

    /**
     * A request through the client: a response passes through unchanged, and
     * a rejection goes through `RejectResponse` and is re-rejected to the
     * caller as it was, never swallowed.
     */
    method Send<T>(response: Result<T, HttpError>) returns (r: Result<T, HttpError>, reload: bool)
      modifies this
      ensures r == response
      ensures reload <==> response.Failure? && IsUnauthorized(response.error)
      ensures reload ==> IsEmpty()
      ensures !reload ==> token == old(token) && user == old(user)
    {
      r, reload := response, false;
      if response.Failure? {
        reload := RejectResponse(response.error);
      }
    }

    /** `authService.login`: `POST /auth/login`; the error is rethrown unchanged. */
    method Login(response: Result<LoginData, HttpError>) returns (r: Result<LoginData, HttpError>, reload: bool)
      modifies this
      ensures r == response
      ensures reload <==> response.Failure? && IsUnauthorized(response.error)
      ensures reload ==> IsEmpty()
      ensures !reload ==> token == old(token) && user == old(user)
    {
      r, reload := Send(response);
    }

    /** `authService.verifyToken`: `GET /auth/verify-token`; the error is rethrown unchanged. */
    method VerifyToken(response: Result<(), HttpError>) returns (r: Result<(), HttpError>, reload: bool)
      modifies this
      ensures r == response
      ensures reload <==> response.Failure? && IsUnauthorized(response.error)
      ensures reload ==> IsEmpty()
      ensures !reload ==> token == old(token) && user == old(user)
    {
      r, reload := Send(response);
    }

    /** `authService.logout`: removes both keys; local only, no request. */
    method Logout()
      modifies this
      ensures IsEmpty()
      ensures AuthorizationHeader() == None
    {
      token := None;
      user := None;
    }
  }
}
