/**
 * The shared api instance's two interceptors: the request interceptor that attaches the
 * stored access token, and the response interceptor that, on a first 401, refreshes the
 * access token once and replays the request, tearing the session down when the refresh
 * fails on an admin page.
 */
module Api {
  import opened Common
  import opened Text
  import opened Http
  import opened Browser

  /** A successful response. */
  datatype Response = Response(status: int, data: string)

  /** What the server does with one request: answers it, or fails it with an axios error. */
  datatype Reply = Ok(response: Response) | Err(error: HttpError)

  /** The request config, reachable from a failed request as `error.config`. */
  class Request {
    // originalRequest._retry
    var retry: bool
    // config.headers.Authorization
    var authorization: Option<string>

    constructor (authorization: Option<string>)
      ensures !retry && this.authorization == authorization
    {
      retry := false;
      this.authorization := authorization;
    }
  }

  /** The request interceptor: `Bearer <token>` when a token is stored, the headers untouched otherwise. */
  method AttachToken(env: Env, req: Request)
    modifies req`authorization
    ensures Truthy(env.accessToken) ==> req.authorization == Some(Bearer(env.accessToken.value))
    ensures !Truthy(env.accessToken) ==> req.authorization == old(req.authorization)
  {
    var token := env.accessToken;
    if token.Some? && token.value != "" {
      req.authorization := Some(Bearer(token.value));
    }
  }

  /** The interceptor refreshes only on a 401 response. */
  predicate Unauthorized(e: HttpError) {
    e.ErrorStatus? && e.status == 401
  }

  /** The promise the replay settles to when the server answers it with `r`. */
  function ReplayResult(r: Reply): (result: Settled<Response>)
    ensures result.Fulfilled? <==> r.Ok?
    ensures r.Ok? ==> result.value == r.response
    ensures r.Err? ==> result.reason == AxiosError(r.error)
  {
    match r
    case Ok(response) => Fulfilled(response)
    case Err(e) => Rejected(AxiosError(e))
  }

  /**
   * The response interceptor's rejection handler for a request that failed with `error`.
   * `refreshReply` is how `POST /api/token/refresh/` settles (the new access token on
   * success) and `replayReply` how the server answers the replayed request. Besides the
   * settled result it reports the refresh tokens it posted and how many replays it sent.
   * The replay goes through both interceptors again; because `return api(originalRequest)`
   * is not awaited inside the `try`, a replay that fails skips the `catch` and no teardown
   * happens.
   */
  method OnRejected(env: Env, req: Request, error: HttpError, refreshReply: Settled<string>, replayReply: Reply)
    returns (result: Settled<Response>, refreshCalls: seq<string>, replays: nat)
    modifies env, req
    decreases if req.retry then 0 else 1
    // at most one refresh and one replay per request
    ensures |refreshCalls| <= 1 && replays <= |refreshCalls|
    // no response, a status other than 401, or a request already retried: rejected as it came, nothing touched
    ensures !(Unauthorized(error) && !old(req.retry)) ==>
      result == Rejected(AxiosError(error)) && refreshCalls == [] && replays == 0 && unchanged(env) && unchanged(req)
    // a first 401 marks the request as retried before anything else
    ensures Unauthorized(error) && !old(req.retry) ==> req.retry
    // without a stored refresh token no refresh call is made
    ensures Unauthorized(error) && !old(req.retry) && !Truthy(old(env.refreshToken)) ==>
      refreshCalls == [] && result == Rejected(NoRefreshToken)
    ensures Unauthorized(error) && !old(req.retry) && Truthy(old(env.refreshToken)) ==>
      refreshCalls == [old(env.refreshToken).value]
    // refresh succeeded: new access token stored and set on the defaults and on the request, one replay
    ensures Unauthorized(error) && !old(req.retry) && Truthy(old(env.refreshToken)) && refreshReply.Fulfilled? ==>
      && env.accessToken == Some(refreshReply.value)
      && env.refreshToken == old(env.refreshToken)
      && env.defaultAuthorization == Some(Bearer(refreshReply.value))
      && req.authorization == Some(Bearer(refreshReply.value))
      && env.pathname == old(env.pathname)
      && replays == 1
      && result == ReplayResult(replayReply)
    // refresh failed: rejected with the refresh error; the session is torn down only on an admin page
    ensures Unauthorized(error) && !old(req.retry) && (!Truthy(old(env.refreshToken)) || refreshReply.Rejected?) ==>
      && replays == 0
      && result == Rejected(if Truthy(old(env.refreshToken)) then refreshReply.reason else NoRefreshToken)
      && req.authorization == old(req.authorization)
      && env.defaultAuthorization == old(env.defaultAuthorization)
      && (if StartsWith(old(env.pathname), "/admin")
          then env.accessToken == None && env.refreshToken == None && env.pathname == "/login"
          else env.accessToken == old(env.accessToken) && env.refreshToken == old(env.refreshToken)
               && env.pathname == old(env.pathname))
  {
    refreshCalls := [];
    replays := 0;
    if error.NoResponse? {
      return Rejected(AxiosError(error)), refreshCalls, replays;
    }
    if error.status == 401 && !req.retry {
      req.retry := true;
      var refreshError: Failure;
      var refresh := env.refreshToken;
      if refresh.None? || refresh.value == "" {
        refreshError := NoRefreshToken;
      } else {
        refreshCalls := [refresh.value];
        match refreshReply {
          case Fulfilled(access) =>
            env.accessToken := Some(access);
            env.defaultAuthorization := Some(Bearer(access));
            req.authorization := Some(Bearer(access));
            // api(originalRequest): both interceptors run again
            AttachToken(env, req);
            replays := 1;
            match replayReply {
              case Ok(response) =>
                result := Fulfilled(response);
              case Err(e) =>
                var again, calls, more := OnRejected(env, req, e, refreshReply, replayReply);
                result := again;
                refreshCalls := refreshCalls + calls;
                replays := replays + more;
            }
            return result, refreshCalls, replays;
          case Rejected(reason) =>
            refreshError := reason;
        }
      }
      if StartsWith(env.pathname, "/admin") {
        env.accessToken := None;
        env.refreshToken := None;
        env.pathname := "/login";
      }
      return Rejected(refreshError), refreshCalls, replays;
    }
    return Rejected(AxiosError(error)), refreshCalls, replays;
  }

  /**
   * One request through the whole pipeline: the request interceptor, the server's
   * `reply`, then the response interceptor (a success passes through untouched).
   */
  method Send(env: Env, req: Request, reply: Reply, refreshReply: Settled<string>, replayReply: Reply)
    returns (result: Settled<Response>, refreshCalls: seq<string>, replays: nat)
    modifies env, req
    ensures |refreshCalls| <= 1 && replays <= |refreshCalls|
    ensures reply.Ok? ==> result == Fulfilled(reply.response) && refreshCalls == [] && replays == 0 && unchanged(env)
    ensures reply.Err? && !Unauthorized(reply.error) ==> result == Rejected(AxiosError(reply.error)) && refreshCalls == [] && unchanged(env)
  {
    AttachToken(env, req);
    match reply {
      case Ok(response) =>
        result, refreshCalls, replays := Fulfilled(response), [], 0;
      case Err(e) =>
        result, refreshCalls, replays := OnRejected(env, req, e, refreshReply, replayReply);
    }
  }
}
