/**
 * The Express error handler: it turns a thrown error, together with the
 * status code already set on the response, into the JSON error reply.
 */
module ErrorMiddleware {
  import opened Types

  /** A thrown JavaScript `Error`. */
  datatype Error = Error(message: string, stack: Option<string>)

  datatype ErrorBody = ErrorBody(message: string, stack: Option<string>)

  datatype ErrorReply = ErrorReply(status: int, body: ErrorBody)

  const Production: string := "production"

  /** A response still at 200 when the error arrives is reported as 500; any other status is kept. */
  function ErrorStatus(statusCode: int): (r: int)
    ensures statusCode == 200 ==> r == 500
    ensures statusCode != 200 ==> r == statusCode
    ensures r != 200
  {
    if statusCode == 200 then 500 else statusCode
  }

  /** The error-handling middleware; `nodeEnv` is the value of the NODE_ENV environment variable. */
  function ErrorHandler(statusCode: int, err: Error, nodeEnv: Option<string>): (r: ErrorReply)
    ensures r.status != 200
    ensures statusCode == 200 ==> r.status == 500
    ensures statusCode != 200 ==> r.status == statusCode
    ensures r.body.message == err.message
    ensures nodeEnv == Some(Production) ==> r.body.stack == None
    ensures nodeEnv != Some(Production) ==> r.body.stack == err.stack
  {
    ErrorReply(ErrorStatus(statusCode),
               ErrorBody(err.message, if nodeEnv == Some(Production) then None else err.stack))
  }
}
