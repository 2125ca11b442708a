/**
 * verifySession (services/auth/src/middleware/verify-session.ts): looks the
 * session up from the request headers and either attaches user and session
 * to the request and calls `next()`, or answers 401. The better-auth lookup
 * is a parameter.
 */
module VerifySession {

  import opened Wrappers
  import opened Json
  import opened Express

  /** `sessionData`: `null` when there is no session, else its user and session members. */
  datatype SessionData = SessionData(user: Option<Json>, session: Option<Json>)

  /** `await auth.api.getSession(..)` either yields (possibly null) data or throws. */
  datatype Lookup = Found(data: Option<SessionData>) | LookupFailed

  function Unauthorized(text: string): Reply {
    JsonReply(401, JObj([("success", JBool(false)), ("error", JStr(text))]))
  }

  const InvalidSession := "Unauthorized : Invalid or expired session"
  const VerificationFailed := "Session verification failed"

  /** `!sessionData?.user || !sessionData?.session` is false. */
  predicate HasSession(l: Lookup) {
    l.Found? && l.data.Some? && TruthyOpt(l.data.value.user) && TruthyOpt(l.data.value.session)
  }

  /**
   * A valid session sets `req.session` and `req.user` and calls `next()`.
   * Otherwise a 401 is written and `next` is not called. When that write
   * throws because a reply went out already, the catch tries a second 401,
   * which throws too. The rejected promise is handed to Express's error
   * handling.
   */
  method Verify(lookup: Lookup, req: Request, res: Response) returns (flow: Flow)
    modifies req, res
    ensures HasSession(lookup) ==>
      flow == Next && req.user == lookup.data.value.user && req.session == lookup.data.value.session &&
      res.reply == old(res.reply)
    ensures !HasSession(lookup) ==>
      req.user == old(req.user) && req.session == old(req.session) &&
      if old(res.reply).None? then
        flow == Done && res.reply == Some(Unauthorized(if lookup.LookupFailed? then VerificationFailed else InvalidSession))
      else flow == NextError(HeadersSentError) && res.reply == old(res.reply)
    ensures req.startTime == old(req.startTime)
  {
    if lookup.LookupFailed? {
      var ok := res.Send(Unauthorized(VerificationFailed));
      if !ok {
        return NextError(HeadersSentError);
      }
      return Done;
    }
    var data := lookup.data;
    if data.None? || !TruthyOpt(data.value.user) || !TruthyOpt(data.value.session) {
      var ok := res.Send(Unauthorized(InvalidSession));
      if !ok {
        // the catch block writes its own 401, which throws again
        var again := res.Send(Unauthorized(VerificationFailed));
        return NextError(HeadersSentError);
      }
      return Done;
    }
    req.session := data.value.session;
    req.user := data.value.user;
    flow := Next;
  }
}
