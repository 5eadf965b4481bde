/**
 * How an API call ends, as seen by its caller: the promise that `api.get/post/put/…`
 * returns either fulfils with the response data or rejects with a reason.
 */
module Http {
  import opened Common

  /** An axios error: without a response (the backend could not be reached), or with a status and the server's `detail` text. */
  datatype HttpError =
    | NoResponse(message: string)
    | ErrorStatus(status: int, detail: Option<string>)

  /** A rejection reason. */
  datatype Failure =
    | AxiosError(error: HttpError)
    // `new Error('Nenhum refresh token encontrado')`
    | NoRefreshToken
    // what the JWT decoder throws on a malformed token
    | InvalidToken

  /** A settled promise. */
  datatype Settled<+T> = Fulfilled(value: T) | Rejected(reason: Failure)

  /** `error.response?.data?.detail`: only an axios error that carries a response has one. */
  function Detail(f: Failure): (d: Option<string>)
    ensures d.Some? ==> f.AxiosError? && f.error.ErrorStatus?
  {
    match f
    case AxiosError(ErrorStatus(_, detail)) => detail
    case _ => None
  }

  /** `error.response?.status`. */
  function Status(f: Failure): (s: Option<int>)
    ensures s.Some? <==> f.AxiosError? && f.error.ErrorStatus?
  {
    match f
    case AxiosError(ErrorStatus(status, _)) => Some(status)
    case _ => None
  }
}
