/**
 * The part of Express the middleware touches. A response is write-once: the
 * first `res.status(..).json(..)` goes out, and any later attempt throws
 * `ERR_HTTP_HEADERS_SENT` and changes nothing. A request carries the fields
 * the middleware reads and the three fields it assigns (`startTime`, `user`,
 * `session`).
 */
module Express {

  import opened Wrappers
  import opened Json

  type Headers = map<string, string>

  /** What a reply carries: a JSON document, or the upstream bytes a proxy relays. */
  datatype Body = JsonBody(value: Json) | Relayed(content: seq<int>)

  datatype Reply = Reply(status: int, headers: Headers, body: Body)

  /** `res.status(status).json(value)`, with the status Express uses when none is set being 200. */
  function JsonReply(status: int, value: Json): Reply {
    Reply(status, map[], JsonBody(value))
  }

  /** An error object as it reaches `next(err)` or an error handler. */
  datatype HttpError = HttpError(
    statusCode: Option<int>,
    code: Option<string>,
    message: string,
    stack: Option<string>)

  /** The error Node throws when a second response write is attempted. */
  const HeadersSentError: HttpError :=
    HttpError(None, Some("ERR_HTTP_HEADERS_SENT"), "Cannot set headers after they are sent to the client", None)

  /** How a middleware ends: `next()`, `next(err)` (or a throw), or neither. */
  datatype Flow = Next | NextError(err: HttpError) | Done

  class Response {
    var reply: Option<Reply>

    constructor ()
      ensures reply == None
    {
      reply := None;
    }

    predicate HeadersSent()
      reads this
    {
      reply.Some?
    }

    /** Writes `r` unless a reply has already gone out; `ok` is false when Express would throw. */
    method Send(r: Reply) returns (ok: bool)
      modifies this
      ensures ok <==> old(reply).None?
      ensures reply == if ok then Some(r) else old(reply)
    {
      ok := reply.None?;
      if ok {
        reply := Some(r);
      }
    }
  }

  class Request {
    const verb: string  // `req.method`
    const path: string
    const originalUrl: string
    const body: Option<Json>
    var startTime: Option<int>
    var user: Option<Json>
    var session: Option<Json>

    constructor (verb: string, path: string, originalUrl: string, body: Option<Json>)
      ensures this.verb == verb && this.path == path && this.originalUrl == originalUrl
      ensures this.body == body
      ensures startTime == None && user == None && session == None
    {
      this.verb := verb;
      this.path := path;
      this.originalUrl := originalUrl;
      this.body := body;
      startTime := None;
      user := None;
      session := None;
    }
  }
}
