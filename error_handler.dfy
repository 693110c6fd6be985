/** The error-handling middleware: a first-match cascade from an error object to a
    status code and a JSON body. Logging the stack is not modelled. */
module ErrorMiddleware {
  import opened Base

  /** The parts of an error object the middleware reads: `name`, `code`, the messages of
      the values of `errors` (in order), the keys of `keyValue` (in order), `status` and
      `message`. */
  datatype ErrorInfo = ErrorInfo(
    name: string,
    code: Option<int>,
    fieldMessages: seq<string>,
    keyValueKeys: seq<string>,
    status: Option<int>,
    message: string)

  /** The JSON body; an absent member is one JSON serialisation leaves out (`undefined`). */
  datatype ErrorBody = ErrorBody(
    message: string,
    errors: Option<seq<string>>,
    field: Option<string>,
    error: Option<string>)

  datatype ErrorReply = ErrorReply(status: int, body: ErrorBody)

  const DUPLICATE_KEY: int := 11000

  /** `if (err.status)`: a status that is present and not 0. */
  predicate HasCustomStatus(err: ErrorInfo) {
    err.status.Some? && err.status.value != 0
  }

  /** `err.name` names one of the two token errors. */
  predicate IsTokenError(err: ErrorInfo) {
    err.name == "JsonWebTokenError" || err.name == "TokenExpiredError"
  }

  /** `errorHandler`. `development` says whether the environment is the development one.
      The first matching branch answers: a validation error with every field message; a
      duplicate key naming the first duplicated field; the two token errors; an error's
      own status with its own message; and otherwise 500, with the detail shown only
      in development. */
  function HandleError(err: ErrorInfo, development: bool): (r: ErrorReply)
    ensures err.name == "ValidationError" ==>
      r == ErrorReply(400, ErrorBody("Validation Error", Some(err.fieldMessages), None, None))
    ensures err.name != "ValidationError" && err.code == Some(DUPLICATE_KEY) ==>
      && r.status == 400 && r.body.message == "Duplicate field value entered"
      && r.body.errors.None? && r.body.error.None?
      && (r.body.field.Some? <==> |err.keyValueKeys| > 0)
      && (r.body.field.Some? ==> r.body.field.value == err.keyValueKeys[0])
    ensures err.name != "ValidationError" && err.code != Some(DUPLICATE_KEY) && IsTokenError(err) ==>
      r == ErrorReply(401, ErrorBody(if err.name == "JsonWebTokenError" then "Invalid token" else "Token expired", None, None, None))
    ensures err.name != "ValidationError" && err.code != Some(DUPLICATE_KEY) && !IsTokenError(err) && HasCustomStatus(err) ==>
      r == ErrorReply(err.status.value, ErrorBody(err.message, None, None, None))
    ensures err.name != "ValidationError" && err.code != Some(DUPLICATE_KEY) && !IsTokenError(err) && !HasCustomStatus(err) ==>
      r == ErrorReply(500, ErrorBody("Something went wrong", None, None, if development then Some(err.message) else None))
  {
    if err.name == "ValidationError" then
      ErrorReply(400, ErrorBody("Validation Error", Some(err.fieldMessages), None, None))
    else if err.code == Some(DUPLICATE_KEY) then
      ErrorReply(400, ErrorBody("Duplicate field value entered", None,
                                if |err.keyValueKeys| > 0 then Some(err.keyValueKeys[0]) else None, None))
    else if err.name == "JsonWebTokenError" then
      ErrorReply(401, ErrorBody("Invalid token", None, None, None))
    else if err.name == "TokenExpiredError" then
      ErrorReply(401, ErrorBody("Token expired", None, None, None))
    else if HasCustomStatus(err) then
      ErrorReply(err.status.value, ErrorBody(err.message, None, None, None))
    else
      ErrorReply(500, ErrorBody("Something went wrong", None, None, if development then Some(err.message) else None))
  }

  /** Every error gets exactly one answer, whose status is one of the middleware's own
      codes or the error's own status. */
  lemma StatusComesFromBranch(err: ErrorInfo, development: bool)
    ensures var s := HandleError(err, development).status;
      s == 400 || s == 401 || s == 500 || (HasCustomStatus(err) && s == err.status.value)
  {
  }

  /** First match wins: a validation error is a 400 even when it carries a status of its
      own, a duplicate code, or a token error's name. */
  lemma ValidationWins(err: ErrorInfo, development: bool)
    requires err.name == "ValidationError"
    ensures HandleError(err, development).status == 400
    ensures HandleError(err, development).body.errors == Some(err.fieldMessages)
  {
  }

  /** The internal detail reaches the client only from the fall-through branch, and only
      in development. */
  lemma DetailOnlyInDevelopment(err: ErrorInfo, development: bool)
    ensures HandleError(err, development).body.error.Some? <==>
      (&& development
       && err.name != "ValidationError" && err.code != Some(DUPLICATE_KEY)
       && !IsTokenError(err) && !HasCustomStatus(err))
  {
  }

  /** Outside development the answer never depends on the error's message unless the
      error carries its own status. */
  lemma MessageHiddenOutsideDevelopment(err: ErrorInfo, other: string)
    requires !HasCustomStatus(err)
    ensures HandleError(err, false) == HandleError(err.(message := other), false)
  {
  }
}
