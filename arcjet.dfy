/**
 * The Arcjet middlewares of the auth service (services/auth/src/config/arcjet.ts).
 * Rule evaluation belongs to Arcjet, so each middleware takes the outcome
 * of `protect` as a parameter and models only the cascade the code runs on
 * it: which reply is written, and whether `next` is called. Logging is
 * left out.
 */
module Arcjet {

  import opened Wrappers
  import opened Json
  import opened Express

  /** `mode`: rules enforce only when ARCJET_ENV is `production`. */
  function Mode(arcjetEnv: Option<string>): (m: string)
    ensures m == "LIVE" <==> arcjetEnv == Some("production")
    ensures m == "LIVE" || m == "DRY_RUN"
  {
    if arcjetEnv == Some("production") then "LIVE" else "DRY_RUN"
  }

  datatype DenialReason = RateLimit | Bot | OtherReason

  /**
   * The parts of an Arcjet decision the code reads: `isDenied()`, the
   * reason, `ip.isHosting()` and, per rule result, `isSpoofedBot`.
   */
  datatype Decision = Decision(denied: bool, reason: DenialReason, hostingIp: bool, spoofed: seq<bool>)

  /** `await aj.protect(..)` either yields a decision or throws. */
  datatype Protection = Decided(decision: Decision) | ProtectFailed(message: string)

  function ErrorBody(text: string): Json { JObj([("error", JStr(text))]) }

  predicate AnySpoofed(d: Decision) { exists i :: 0 <= i < |d.spoofed| && d.spoofed[i] }

  /**
   * The reply the cascade picks for a decision, or `None` for a clean one.
   * Checks run denial, then hosting IP, then spoofed bots.
   */
  function Verdict(d: Decision): (v: Option<Reply>)
    ensures v.None? <==> !d.denied && !d.hostingIp && !AnySpoofed(d)
    ensures d.denied && d.reason == RateLimit ==> v == Some(JsonReply(429, ErrorBody("Too Many Requests")))
    ensures d.denied && d.reason == Bot ==> v == Some(JsonReply(403, ErrorBody("No bots allowed")))
    ensures d.denied && d.reason == OtherReason ==> v == Some(JsonReply(403, ErrorBody("Forbidden")))
    ensures !d.denied && (d.hostingIp || AnySpoofed(d)) ==> v == Some(JsonReply(403, ErrorBody("Forbidden")))
  {
    if d.denied then
      match d.reason
      case RateLimit => Some(JsonReply(429, ErrorBody("Too Many Requests")))
      case Bot => Some(JsonReply(403, ErrorBody("No bots allowed")))
      case OtherReason => Some(JsonReply(403, ErrorBody("Forbidden")))
    else if d.hostingIp then Some(JsonReply(403, ErrorBody("Forbidden")))
    else if AnySpoofed(d) then Some(JsonReply(403, ErrorBody("Forbidden")))
    else None
  }

  /** Only 429 and 403 are ever written. */
  lemma VerdictStatuses(d: Decision)
    requires Verdict(d).Some?
    ensures Verdict(d).value.status == 429 <==> d.denied && d.reason == RateLimit
    ensures Verdict(d).value.status == 403 <==> !(d.denied && d.reason == RateLimit)
  {
  }

  /** A denial decides the reply whatever the IP and the spoofing results say. */
  lemma DenialFirst(d: Decision, hosting: bool, spoofed: seq<bool>)
    requires d.denied
    ensures Verdict(d) == Verdict(Decision(true, d.reason, hosting, spoofed))
  {
  }

  /**
   * arcjetMiddleware. A clean decision calls `next()`; any other writes its
   * reply and stops. A protection error fails open: `next()`. When a reply
   * has already been sent, writing throws, the catch logs it, and the
   * request still goes on with `next()`.
   */
  method ArcjetMiddleware(p: Protection, res: Response) returns (flow: Flow)
    modifies res
    ensures flow == Next || flow == Done
    ensures flow == Done <==> p.Decided? && Verdict(p.decision).Some? && old(res.reply).None?
    ensures res.reply == if flow == Done then Some(Verdict(p.decision).value) else old(res.reply)
  {
    if p.ProtectFailed? {
      return Next;
    }
    var d := p.decision;
    var reply: Reply;
    if d.denied {
      if d.reason == RateLimit {
        reply := JsonReply(429, ErrorBody("Too Many Requests"));
      } else if d.reason == Bot {
        reply := JsonReply(403, ErrorBody("No bots allowed"));
      } else {
        reply := JsonReply(403, ErrorBody("Forbidden"));
      }
    } else if d.hostingIp {
      reply := JsonReply(403, ErrorBody("Forbidden"));
    } else if exists i :: 0 <= i < |d.spoofed| && d.spoofed[i] {
      reply := JsonReply(403, ErrorBody("Forbidden"));
    } else {
      return Next;
    }
    var ok := res.Send(reply);
    if !ok {
      return Next;
    }
    flow := Done;
  }

  /** `await ajEmailValidator.protect(req, { email })` either yields a decision or throws. */
  datatype EmailProtection = EmailDecided(denied: bool) | EmailFailed(err: HttpError)

  /** What `req.body.email` throws when there is no body object to read from. */
  function PropertyReadError(what: string): HttpError {
    HttpError(None, None, "Cannot read properties of " + what + " (reading 'email')", None)
  }

  /** `req.body.email`: `None` stands for the throw on an undefined or null body. */
  function EmailOf(body: Option<Json>): Option<Option<Json>> {
    match body
    case None => None
    case Some(JNull) => None
    case Some(JObj(fs)) => Some(Get(fs, "email"))
    case Some(_) => Some(None)
  }

  const EmailRequired := "Email is required"
  const EmailRejected := "Email validation failed: Signup not allowed with this email"

  /**
   * arcjetEmailValidationMiddleware. A missing email writes 400 and stops
   * before `protect` runs. A denied email writes 403 and, with no `return`
   * after it, still calls `next()`. Any throw, including a failed write,
   * is passed on with `next(error)`.
   */
  method ArcjetEmailValidation(body: Option<Json>, p: EmailProtection, res: Response) returns (flow: Flow)
    modifies res
    ensures body.None? ==> flow == NextError(PropertyReadError("undefined")) && res.reply == old(res.reply)
    ensures body == Some(JNull) ==> flow == NextError(PropertyReadError("null")) && res.reply == old(res.reply)
    ensures EmailOf(body).Some? && !TruthyOpt(EmailOf(body).value) ==>
      if old(res.reply).None? then flow == Done && res.reply == Some(JsonReply(400, ErrorBody(EmailRequired)))
      else flow == NextError(HeadersSentError) && res.reply == old(res.reply)
    ensures EmailOf(body).Some? && TruthyOpt(EmailOf(body).value) && p.EmailFailed? ==>
      flow == NextError(p.err) && res.reply == old(res.reply)
    ensures EmailOf(body).Some? && TruthyOpt(EmailOf(body).value) && p == EmailDecided(false) ==>
      flow == Next && res.reply == old(res.reply)
    ensures EmailOf(body).Some? && TruthyOpt(EmailOf(body).value) && p == EmailDecided(true) ==>
      if old(res.reply).None? then flow == Next && res.reply == Some(JsonReply(403, ErrorBody(EmailRejected)))
      else flow == NextError(HeadersSentError) && res.reply == old(res.reply)
  {
    if body.None? {
      return NextError(PropertyReadError("undefined"));
    }
    if body == Some(JNull) {
      return NextError(PropertyReadError("null"));
    }
    var email := EmailOf(body).value;
    if !TruthyOpt(email) {
      var ok := res.Send(JsonReply(400, ErrorBody(EmailRequired)));
      if !ok {
        return NextError(HeadersSentError);
      }
      return Done;
    }
    if p.EmailFailed? {
      return NextError(p.err);
    }
    if p.denied {
      var ok := res.Send(JsonReply(403, ErrorBody(EmailRejected)));
      if !ok {
        return NextError(HeadersSentError);
      }
    }
    flow := Next;
  }
}
