/**
 * errorHandler (packages/service/middleware/index.ts): the shared
 * services' Express error handler. It answers with the error's status (500
 * when falsy) and an error envelope, then still calls `next()`. Logging the
 * error is left out.
 */
module ErrorMiddleware {

  import opened Wrappers
  import opened Json
  import opened Express
  import Utils

  const InternalServerError := "Internal Server Error"

  /** `error.statusCode || 500`: an absent or zero status falls back to 500. */
  function ErrorStatus(statusCode: Option<int>): (s: int)
    ensures s != 0
    ensures statusCode.Some? && statusCode.value != 0 ==> s == statusCode.value
    ensures statusCode.None? || statusCode.value == 0 ==> s == 500
  {
    if statusCode.Some? && statusCode.value != 0 then statusCode.value else 500
  }

  /** `error.message || 'Internal Server Error'`. */
  function ErrorText(message: string): (m: string)
    ensures m != ""
    ensures message != "" ==> m == message
    ensures message == "" ==> m == InternalServerError
  {
    if message != "" then message else InternalServerError
  }

  /** The reply errorHandler writes: `createErrorResponse(message)` under the fallback status. */
  function ErrorReply(error: HttpError): Reply {
    JsonReply(ErrorStatus(error.statusCode), Utils.ToJson(Utils.CreateErrorResponse(ErrorText(error.message))))
  }

  /** The envelope carries only `success: false` and the message. */
  lemma ErrorReplyBody(error: HttpError)
    ensures ErrorReply(error).body
         == JsonBody(JObj([("success", JBool(false)), ("error", JStr(ErrorText(error.message)))]))
  {
    Utils.ErrorEnvelopeJson(ErrorText(error.message));
  }

  /**
   * The handler: write the reply, then `next()`. When a reply has already
   * gone out, `res.status().json()` throws and Express hands that error on.
   */
  method ErrorHandler(error: HttpError, res: Response) returns (flow: Flow)
    modifies res
    ensures old(res.reply).None? ==> res.reply == Some(ErrorReply(error)) && flow == Next
    ensures old(res.reply).Some? ==> res.reply == old(res.reply) && flow == NextError(HeadersSentError)
  {
    var statusCode := ErrorStatus(error.statusCode);
    var message := ErrorText(error.message);
    var ok := res.Send(JsonReply(statusCode, Utils.ToJson(Utils.CreateErrorResponse(message))));
    if !ok {
      return NextError(HeadersSentError);
    }
    flow := Next;
  }
}
