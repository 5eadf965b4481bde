/**
 * The session provider: the decoded user, the startup `loading` flag, and the
 * transitions that keep them, the stored tokens and the api's default
 * `Authorization` header in step — startup rehydration, login, logout and refresh.
 *
 * JWT decoding is a parameter (`decode`), a partial function from a token to its
 * claims; the clock is a parameter (`now`, milliseconds); each HTTP call is given by
 * how its promise settles.
 */
module Auth {
  import opened Common
  import opened Http
  import opened Browser

  /** The decoded token (the fields the model reads). */
  datatype Claims = Claims(exp: int, userId: int, username: string)

  /** What `POST /api/token/` answers on success. */
  datatype TokenPair = TokenPair(access: string, refresh: string)

  /** `LoginResponse`: `success`, and the message when it failed. */
  datatype LoginResponse = LoginResponse(success: bool, error: Option<string>)

  const GenericLoginError := "Erro ao fazer login"

  /** A token whose `exp` (seconds) lies strictly after `now` (milliseconds). */
  predicate Unexpired(c: Claims, now: int) {
    c.exp * 1000 > now
  }

  /** `error.response?.data?.detail || "Erro ao fazer login"`. */
  function LoginError(f: Failure): (msg: string)
    ensures Detail(f).Some? && Detail(f).value != "" ==> msg == Detail(f).value
    ensures Detail(f).None? || Detail(f).value == "" ==> msg == GenericLoginError
    ensures msg != ""
  {
    match Detail(f)
    case Some(d) => if d != "" then d else GenericLoginError
    case None => GenericLoginError
  }

  /** A failure with no server response, or a token that would not decode, always shows the generic message. */
  lemma LoginErrorWithoutResponse(f: Failure)
    requires !f.AxiosError? || f.error.NoResponse?
    ensures LoginError(f) == GenericLoginError
  {
  }

  class AuthProvider {
    const env: Env
    var user: Option<Claims>
    var loading: bool

    /** `useState(null)`, `useState(true)`: no user, still loading. */
    constructor (env: Env)
      ensures this.env == env && user == None && loading
    {
      this.env := env;
      user := None;
      loading := true;
    }

    /** `!!user`. */
    function IsAuthenticated(): (authed: bool)
      reads this
      ensures authed <==> user.Some?
    {
      user.Some?
    }

    /**
     * The startup effect: a stored token that decodes to an unexpired claim set restores
     * the user and the header; an expired or undecodable one removes both stored tokens;
     * no token changes nothing. Loading ends on every path.
     */
    method Rehydrate(now: int, decode: string -> Option<Claims>)
      modifies this`user, this`loading, env`accessToken, env`refreshToken, env`defaultAuthorization
      ensures !loading && env.pathname == old(env.pathname)
      ensures !Truthy(old(env.accessToken)) ==>
        user == old(user) && unchanged(env)
      ensures Truthy(old(env.accessToken)) && decode(old(env.accessToken).value).Some?
              && Unexpired(decode(old(env.accessToken).value).value, now) ==>
        && user == decode(old(env.accessToken).value)
        && env.defaultAuthorization == Some(Bearer(old(env.accessToken).value))
        && env.accessToken == old(env.accessToken) && env.refreshToken == old(env.refreshToken)
      ensures Truthy(old(env.accessToken)) && (decode(old(env.accessToken).value).None?
              || !Unexpired(decode(old(env.accessToken).value).value, now)) ==>
        && user == old(user)
        && env.accessToken == None && env.refreshToken == None
        && env.defaultAuthorization == old(env.defaultAuthorization)
    {
      var token := env.accessToken;
      if token.Some? && token.value != "" {
        var decoded := decode(token.value);
        if decoded.Some? {
          if decoded.value.exp * 1000 > now {
            user := decoded;
            env.defaultAuthorization := Some(Bearer(token.value));
          } else {
            env.accessToken := None;
            env.refreshToken := None;
          }
        } else {
          env.accessToken := None;
          env.refreshToken := None;
        }
      }
      loading := false;
    }

    /**
     * `login(username, password)`: `reply` is how `POST /api/token/` settles. The access
     * token is decoded before anything is stored, so a token that will not decode fails
     * the login with nothing stored.
     */
    method Login(reply: Settled<TokenPair>, decode: string -> Option<Claims>) returns (response: LoginResponse)
      modifies this`user, env`accessToken, env`refreshToken, env`defaultAuthorization
      ensures response.success <==> reply.Fulfilled? && decode(reply.value.access).Some?
      ensures response.success ==>
        && response.error == None
        && env.accessToken == Some(reply.value.access)
        && env.refreshToken == Some(reply.value.refresh)
        && env.defaultAuthorization == Some(Bearer(reply.value.access))
        && user == decode(reply.value.access)
      ensures !response.success ==>
        && unchanged(env) && user == old(user)
        && response.error == Some(LoginError(if reply.Rejected? then reply.reason else InvalidToken))
    {
      match reply {
        case Rejected(reason) =>
          response := LoginResponse(false, Some(LoginError(reason)));
        case Fulfilled(pair) =>
          var decoded := decode(pair.access);
          if decoded.None? {
            response := LoginResponse(false, Some(LoginError(InvalidToken)));
          } else {
            env.accessToken := Some(pair.access);
            env.refreshToken := Some(pair.refresh);
            env.defaultAuthorization := Some(Bearer(pair.access));
            user := decoded;
            response := LoginResponse(true, None);
          }
      }
    }

    /** `logout()`: both tokens removed, the header deleted, the user cleared — the same end state whatever came before. */
    method Logout()
      modifies this`user, env`accessToken, env`refreshToken, env`defaultAuthorization
      ensures user == None && !IsAuthenticated()
      ensures env.accessToken == None && env.refreshToken == None && env.defaultAuthorization == None
    {
      env.accessToken := None;
      env.refreshToken := None;
      env.defaultAuthorization := None;
      user := None;
    }

    /**
     * `refreshToken()`: `reply` is how `POST /api/token/refresh/` settles. Success
     * replaces only the access token; any failure, including a missing refresh token or
     * an undecodable new token, logs out and rethrows.
     */
    method RefreshToken(reply: Settled<string>, decode: string -> Option<Claims>) returns (result: Settled<string>)
      modifies this`user, env`accessToken, env`refreshToken, env`defaultAuthorization
      ensures result.Fulfilled? <==> Truthy(old(env.refreshToken)) && reply.Fulfilled? && decode(reply.value).Some?
      ensures result.Fulfilled? ==>
        && result.value == reply.value
        && env.accessToken == Some(reply.value)
        && env.refreshToken == old(env.refreshToken)
        && env.defaultAuthorization == Some(Bearer(reply.value))
        && user == decode(reply.value)
      ensures result.Rejected? ==>
        && user == None
        && env.accessToken == None && env.refreshToken == None && env.defaultAuthorization == None
        && result.reason == (if !Truthy(old(env.refreshToken)) then NoRefreshToken
                             else if reply.Rejected? then reply.reason else InvalidToken)
    {
      var refresh := env.refreshToken;
      var failure: Failure;
      if refresh.None? || refresh.value == "" {
        failure := NoRefreshToken;
      } else {
        match reply {
          case Rejected(reason) =>
            failure := reason;
          case Fulfilled(access) =>
            var decoded := decode(access);
            if decoded.Some? {
              env.accessToken := Some(access);
              env.defaultAuthorization := Some(Bearer(access));
              user := decoded;
              return Fulfilled(access);
            }
            failure := InvalidToken;
        }
      }
      Logout();
      result := Rejected(failure);
    }
  }
}
