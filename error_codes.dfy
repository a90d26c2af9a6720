/**
 * The error table of helpers/codes/error-codes.js and the `HttpError` record of
 * helpers/http-error.js (a message and a numeric code).
 */
module ErrorCodes {
  import opened Wrappers

  datatype HttpError = HttpError(message: string, code: int)

  /** The eight entries of the table, each a `{ value, statusCode }` pair. */
  datatype ErrorCode =
    | ExpiredToken
    | InvalidInputData
    | InvalidCredentials
    | ServerError
    | UserAlreadyExists
    | UserAlreadyActivated
    | UserDoesntExist
    | UserInactive
  {
    function Value(): (v: string)
      ensures v != ""
    {
      match this
      case ExpiredToken => "EXPIRED_TOKEN"
      case InvalidInputData => "INVALID_INPUT_DATA"
      case InvalidCredentials => "INVALID_CREDENTIALS"
      case ServerError => "SERVER_ERROR"
      case UserAlreadyExists => "USER_ALREADY_EXISTS"
      case UserAlreadyActivated => "USER_ALREADY_ACTIVATED"
      case UserDoesntExist => "USER_DOESNT_EXIST"
      case UserInactive => "USER_INACTIVE"
    }

    function StatusCode(): (s: int)
      ensures 400 <= s < 600
    {
      match this
      case ExpiredToken => 401
      case InvalidInputData => 422
      case InvalidCredentials => 403
      case ServerError => 500
      case UserAlreadyExists => 409
      case UserAlreadyActivated => 403
      case UserDoesntExist => 404
      case UserInactive => 401
    }

    /**
     * `new HttpError(X.value, X.statusCode)`, the way every controller raises an entry: the
     * message names this entry and no other, and the code is a 4xx or 5xx status.
     */
    function ToHttpError(): (e: HttpError)
      ensures e.message == Value() && e.code == StatusCode()
      ensures FromValue(e.message) == Some(this)
      ensures 400 <= e.code < 600
    {
      ValueRoundTrip(this);
      HttpError(Value(), StatusCode())
    }
  }

  /** Reads an entry back from its `value` string. */
  function FromValue(s: string): (c: Option<ErrorCode>)
    ensures c.Some? ==> c.value.Value() == s
  {
    match s
    case "EXPIRED_TOKEN" => Some(ExpiredToken)
    case "INVALID_INPUT_DATA" => Some(InvalidInputData)
    case "INVALID_CREDENTIALS" => Some(InvalidCredentials)
    case "SERVER_ERROR" => Some(ServerError)
    case "USER_ALREADY_EXISTS" => Some(UserAlreadyExists)
    case "USER_ALREADY_ACTIVATED" => Some(UserAlreadyActivated)
    case "USER_DOESNT_EXIST" => Some(UserDoesntExist)
    case "USER_INACTIVE" => Some(UserInactive)
    case _ => None
  }

  /** The `value` string identifies its entry: reading it back gives the entry itself. */
  lemma ValueRoundTrip(c: ErrorCode)
    ensures FromValue(c.Value()) == Some(c)
  {
  }

  /** Hence the `value` strings are pairwise distinct. */
  lemma ValuesDistinct(a: ErrorCode, b: ErrorCode)
    requires a != b
    ensures a.Value() != b.Value()
  {
    ValueRoundTrip(a);
    ValueRoundTrip(b);
  }

  /**
   * The status alone does not identify an entry: 401 is shared by EXPIRED_TOKEN and
   * USER_INACTIVE, 403 by INVALID_CREDENTIALS and USER_ALREADY_ACTIVATED; every other
   * status belongs to one entry.
   */
  lemma SharedStatuses(a: ErrorCode, b: ErrorCode)
    requires a != b && a.StatusCode() == b.StatusCode()
    ensures {a, b} == {ExpiredToken, UserInactive} || {a, b} == {InvalidCredentials, UserAlreadyActivated}
    ensures ExpiredToken.StatusCode() == UserInactive.StatusCode()
    ensures InvalidCredentials.StatusCode() == UserAlreadyActivated.StatusCode()
  {
  }

  /** Only SERVER_ERROR is a 5xx status; every other entry is a 4xx client error. */
  lemma OnlyServerErrorIs5xx(c: ErrorCode)
    ensures 400 <= c.StatusCode() < 600
    ensures c.StatusCode() >= 500 <==> c == ServerError
  {
  }
}
