/**
 * helpers/mongo-db-error.js: turns an error thrown by a database call into an
 * `HttpError`. A thrown value is described by the three properties the handler reads:
 * `code` (0 when absent or falsy), `message`, and `errors`, the per-path validation
 * errors of a Mongoose ValidationError in the order a `for...in` loop visits them
 * (empty when the property is absent).
 */
module MongoDbError {
  import opened ErrorCodes

  datatype FieldError = FieldError(path: string, message: string)

  datatype DbError = DbError(code: int, message: string, errors: seq<FieldError>)

  /** MongoDB's duplicate-key codes. */
  const DuplicateKey: int := 11000
  const DuplicateKeyOnUpdate: int := 11001

  /** A non-database exception, such as a TypeError: no code and no `errors`. */
  function PlainError(message: string): (e: DbError)
    ensures e.code == 0 && e.errors == []
  {
    DbError(0, message, [])
  }

  /**
   * `uniqueMessage(error)`. Its `try` body reads the undeclared identifier `field` at
   * line 16; under "use strict" that throws a ReferenceError whatever the error looks
   * like, so the result is always the `catch` branch's text.
   */
  function UniqueMessage(error: DbError): (m: string)
    ensures m == "already exists"
  {
    "already exists"
  }

  /** The message of the last entry whose message is truthy, or "" when there is none. */
  function LastTruthyMessage(errors: seq<FieldError>): string {
    if errors == [] then ""
    else if errors[|errors| - 1].message != "" then errors[|errors| - 1].message
    else LastTruthyMessage(errors[..|errors| - 1])
  }

  /**
   * An independent description of `LastTruthyMessage`: it is "" exactly when every
   * message is empty, and otherwise it is the message at some position after which
   * every message is empty.
   */
  lemma {:induction false} LastTruthyMessageIsLast(errors: seq<FieldError>)
    ensures LastTruthyMessage(errors) == "" <==> forall i :: 0 <= i < |errors| ==> errors[i].message == ""
    ensures LastTruthyMessage(errors) != "" ==>
      exists i :: 0 <= i < |errors| && errors[i].message == LastTruthyMessage(errors) &&
        forall j :: i < j < |errors| ==> errors[j].message == ""
  {
    if errors != [] {
      var n := |errors| - 1;
      if errors[n].message == "" {
        var front := errors[..n];
        LastTruthyMessageIsLast(front);
        assert forall i :: 0 <= i < n ==> front[i] == errors[i];
        if LastTruthyMessage(front) != "" {
          var i :| 0 <= i < |front| && front[i].message == LastTruthyMessage(front) &&
            forall j :: i < j < |front| ==> front[j].message == "";
          assert errors[i].message == LastTruthyMessage(errors);
        }
      }
    }
  }

  /**
   * `dbErrorHandler(error, statusCode = 500)`. The duplicate-key codes give "already
   * exists"; any other truthy code leaves the message "" because line 43 is the label
   * `message:` on an expression statement, not an assignment; with no code the loop over
   * `error.errors` keeps the last truthy message. The code of the result is always
   * `statusCode`.
   */
  method DbErrorHandler(error: DbError, statusCode: int := 500) returns (e: HttpError)
    ensures e.code == statusCode
    ensures error.code == DuplicateKey || error.code == DuplicateKeyOnUpdate ==> e.message == "already exists"
    ensures error.code != 0 && error.code != DuplicateKey && error.code != DuplicateKeyOnUpdate ==> e.message == ""
    ensures error.code == 0 ==> e.message == LastTruthyMessage(error.errors)
  {
    var message := "";
    if error.code != 0 {
      if error.code == DuplicateKey || error.code == DuplicateKeyOnUpdate {
        message := UniqueMessage(error);
      }
    } else {
      var i := 0;
      while i < |error.errors|
        invariant 0 <= i <= |error.errors|
        invariant message == LastTruthyMessage(error.errors[..i])
      {
        assert error.errors[..i + 1][..i] == error.errors[..i];
        if error.errors[i].message != "" {
          message := error.errors[i].message;
        }
        i := i + 1;
      }
      assert error.errors[..i] == error.errors;
    }
    e := HttpError(message, statusCode);
  }
}
