/**
 * app.js: the fallback for unmatched routes, the error middleware that turns whatever
 * reached `next(error)` into the JSON error reply, and the nightly job that removes the
 * accounts nobody activated.
 */
module App {
  import opened Wrappers
  import opened ErrorCodes
  import opened MongoDbError
  import opened UserModel
  import opened AccountControllers

  /**
   * What reaches the error middleware. JavaScript reads `code`, `message` and `data` off
   * any thrown value; a missing or falsy `code` is 0 here, a missing `message` is "".
   */
  datatype Thrown = Thrown(message: string, code: int, data: Option<string>)

  /** An `HttpError` carries a message and a code and never any `data`. */
  function FromHttpError(e: HttpError): (t: Thrown)
    ensures t.message == e.message && t.code == e.code && t.data.None?
  {
    Thrown(e.message, e.code, None)
  }

  /** The JSON body of an error reply. */
  datatype ErrorBody = ErrorBody(success: bool, message: string, data: Option<string>, status: int)

  /** An HTTP status with the JSON body sent under it. */
  datatype ErrorReply = ErrorReply(httpStatus: int, body: ErrorBody)

  /**
   * The error middleware: the status is the error's code, or 500 when it has none; the
   * message is the error's, or SERVER_ERROR when it is empty. The reply always says
   * `success: false`, repeats its HTTP status in the body and passes `data` through.
   */
  function ErrorMiddleware(error: Thrown): (r: ErrorReply)
    ensures !r.body.success && r.body.status == r.httpStatus && r.body.data == error.data
    ensures r.httpStatus != 0 && r.body.message != ""
    ensures r.httpStatus == error.code || (error.code == 0 && r.httpStatus == ServerError.StatusCode())
    ensures r.body.message == error.message || (error.message == "" && r.body.message == ServerError.Value())
  {
    var status := if error.code != 0 then error.code else ServerError.StatusCode();
    var message := if error.message != "" then error.message else ServerError.Value();
    ErrorReply(status, ErrorBody(false, message, error.data, status))
  }

  /** The handler behind every route: `new HttpError('Could not find this route.', 404)`. */
  function NotFound(): (e: HttpError)
    ensures e.code == 404 && e.message == "Could not find this route."
  {
    HttpError("Could not find this route.", 404)
  }

  /** A request no route matched ends in a 404 reply carrying the fallback's message. */
  lemma UnmatchedRouteReply()
    ensures ErrorMiddleware(FromHttpError(NotFound()))
         == ErrorReply(404, ErrorBody(false, "Could not find this route.", None, 404))
  {
  }

  /** An entry of the error table raised by a handler reaches the client unchanged. */
  lemma TableEntryReachesClient(c: ErrorCode)
    ensures ErrorMiddleware(FromHttpError(c.ToHttpError()))
         == ErrorReply(c.StatusCode(), ErrorBody(false, c.Value(), None, c.StatusCode()))
  {
  }

  /**
   * A failed save whose field errors carry no message (and the 500 "" `dbErrorHandler`
   * yields for any other non-duplicate code) reaches the client as 500 SERVER_ERROR.
   */
  lemma SilentSaveFailureReply(errs: seq<FieldError>)
    requires forall i :: 0 <= i < |errs| ==> errs[i].message == ""
    ensures ErrorMiddleware(FromHttpError(Accounts.SaveFailed(errs)))
         == ErrorReply(500, ErrorBody(false, "SERVER_ERROR", None, 500))
  {
  }

  /**
   * The job `cron` runs at midnight: `User.deleteMany({ isActive: false })`. Exactly the
   * inactive accounts go; every active account stays as it was.
   */
  method NightlyPurge(accounts: Accounts)
    requires accounts.Valid()
    modifies accounts.users
    ensures accounts.Valid()
    ensures forall e :: e in accounts.users.docs <==> e in old(accounts.users.docs) && old(accounts.users.docs)[e].isActive
    ensures forall e :: e in accounts.users.docs ==> accounts.users.docs[e] == old(accounts.users.docs)[e]
    ensures accounts.users.nextId == old(accounts.users.nextId)
  {
    accounts.users.DeleteMany(false);
  }
}
