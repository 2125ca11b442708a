/**
 * The per-request pieces of the gateway's proxy router
 * (services/gateway/src/routes/proxy.ts): the reply written when a backend
 * cannot be reached, the two hooks http-proxy-middleware calls around a
 * forwarded request, the path rewrite, Express's mount matching, and the
 * handlers the router stacks around the service proxies (welcome, health,
 * 404, global error). Each handler writes the write-once `Response` and
 * reports how it ends as a `Flow`.
 */
module Proxy {

  import opened Wrappers
  import opened Strings
  import opened Json
  import opened Express
  import opened Services
  import Utf8
  import Actions
  import Logger
  import ErrorMiddleware

  // ---------------------------------------------------------------------
  // getErrorMessage
  // ---------------------------------------------------------------------

  const ConnRefusedText := "Service is not responding. Please try again later."
  const TimedOutText := "Service request timed out. Please try again."
  const NotFoundText := "Service could not be found."
  const ConnResetText := "Connection to service was reset."
  const UnavailableText := "The requested service is temporarily unavailable. Please try again later."

  /** The `errorMessages` table, keyed by Node's socket error codes. */
  const ErrorMessages: map<string, string> := map[
    "ECONNREFUSED" := ConnRefusedText,
    "ETIMEDOUT" := TimedOutText,
    "ENOTFOUND" := NotFoundText,
    "ECONNRESET" := ConnResetText]

  /** `errorMessages[code || ''] || default`: a known code gets its text, anything else the default. */
  function GetErrorMessage(code: Option<string>): (m: string)
    ensures code.Some? && code.value in ErrorMessages ==> m == ErrorMessages[code.value]
    ensures m == UnavailableText <==> !(code.Some? && code.value in ErrorMessages)
    ensures m in ErrorMessages.Values || m == UnavailableText
  {
    var key := code.GetOr("");
    if key in ErrorMessages then ErrorMessages[key] else UnavailableText
  }

  // ---------------------------------------------------------------------
  // handleProxyError
  // ---------------------------------------------------------------------

  /** `err.statusCode || 503`. */
  function ProxyStatus(statusCode: Option<int>): (s: int)
    ensures s != 0
    ensures statusCode.Some? && statusCode.value != 0 ==> s == statusCode.value
    ensures statusCode.None? || statusCode.value == 0 ==> s == 503
  {
    if statusCode.Some? && statusCode.value != 0 then statusCode.value else 503
  }

  /** The error document; an `undefined` service name is dropped by `res.json`. */
  function ProxyErrorFields(code: Option<string>, service: Option<string>, timestamp: string): seq<Field> {
    [("success", JBool(false)), ("error", JStr("Service Unavailable")), ("message", JStr(GetErrorMessage(code)))]
    + OptStr("service", service)
    + [("timestamp", JStr(timestamp))]
  }

  function ProxyErrorReply(err: HttpError, service: Option<string>, timestamp: string): Reply {
    JsonReply(ProxyStatus(err.statusCode), JObj(ProxyErrorFields(err.code, service, timestamp)))
  }

  /** What a client reads from the error document, field by field. */
  lemma ProxyErrorDocument(code: Option<string>, service: Option<string>, timestamp: string)
    ensures var fs := ProxyErrorFields(code, service, timestamp);
      && UniqueKeys(fs)
      && Get(fs, "success") == Some(JBool(false))
      && Get(fs, "error") == Some(JStr("Service Unavailable"))
      && Get(fs, "message") == Some(JStr(GetErrorMessage(code)))
      && Get(fs, "service") == (if service.Some? then Some(JStr(service.value)) else None)
      && Get(fs, "timestamp") == Some(JStr(timestamp))
  {
    var fs := ProxyErrorFields(code, service, timestamp);
    GetFirst(fs, 0);
    GetFirst(fs, 1);
    GetFirst(fs, 2);
    if service.Some? {
      GetFirst(fs, 3);
      GetFirst(fs, 4);
    } else {
      GetFirst(fs, 3);
      GetSomeIff(fs, "service");
    }
  }

  /** handleProxyError: the error reply goes out only while nothing has been sent. */
  method HandleProxyError(err: HttpError, res: Response, service: Option<string>, timestamp: string)
    modifies res
    ensures res.reply == if old(res.reply).None? then Some(ProxyErrorReply(err, service, timestamp)) else old(res.reply)
  {
    if !res.HeadersSent() {
      var ok := res.Send(ProxyErrorReply(err, service, timestamp));
    }
  }

  // ---------------------------------------------------------------------
  // onProxyReq: re-sending the parsed body
  // ---------------------------------------------------------------------

  const BodyVerbs: seq<string> := ["POST", "PUT", "PATCH"]

  /** `req.body && ['POST', 'PUT', 'PATCH'].includes(req.method)`. */
  predicate ForwardsBody(verb: string, body: Option<Json>) {
    TruthyOpt(body) && verb in BodyVerbs
  }

  /** The headers set before the body is written: its type and its UTF-8 byte count. */
  function BodyHeaders(h: Headers, text: string): Headers {
    h["Content-Type" := "application/json"]["Content-Length" := NatToString(Utf8.ByteLength(text))]
  }

  /** The request http-proxy sends upstream, as far as the hook touches it. */
  class ProxyRequest {
    var headers: Headers
    var written: seq<Utf8.Byte>

    constructor ()
      ensures headers == map[] && written == []
    {
      headers := map[];
      written := [];
    }

    /** `proxyReq.setHeader(name, value)`. */
    method SetHeader(name: string, value: string)
      modifies this
      ensures headers == old(headers)[name := value]
      ensures written == old(written)
    {
      headers := headers[name := value];
    }

    /** `proxyReq.write(text)`: a string is written as its UTF-8 bytes. */
    method Write(text: string)
      modifies this
      ensures written == old(written) + Utf8.Encode(text)
      ensures headers == old(headers)
    {
      written := written + Utf8.Encode(text);
    }

    /** onProxyReq: a truthy body of a POST, PUT or PATCH is serialised, announced and written. */
    method OnProxyReq(verb: string, body: Option<Json>, stringify: Json -> string)
      modifies this
      ensures ForwardsBody(verb, body) ==>
        && headers == BodyHeaders(old(headers), stringify(body.value))
        && written == old(written) + Utf8.Encode(stringify(body.value))
      ensures !ForwardsBody(verb, body) ==> headers == old(headers) && written == old(written)
    {
      if ForwardsBody(verb, body) {
        var bodyData := stringify(body.value);
        SetHeader("Content-Type", "application/json");
        SetHeader("Content-Length", NatToString(Utf8.ByteLength(bodyData)));
        Write(bodyData);
      }
    }
  }

  /**
   * The announced Content-Length reads back as the number of bytes written,
   * and those bytes decode to the serialised body.
   */
  lemma DeclaredLengthIsWrittenLength(h: Headers, text: string)
    ensures ParseInt(BodyHeaders(h, text)["Content-Length"]) == Some(|Utf8.Encode(text)|)
    ensures BodyHeaders(h, text)["Content-Type"] == "application/json"
    ensures Utf8.Decode(Utf8.Encode(text)) == Some(text)
  {
    var n := Utf8.ByteLength(text);
    NatToStringRoundTrip(n);
    DigitsParse(NatToString(n));
    Utf8.DecodeEncode(text);
  }

  // ---------------------------------------------------------------------
  // onProxyRes: tagging the upstream reply
  // ---------------------------------------------------------------------

  /**
   * `Date.now() - (startTime || Date.now())`, with both clock readings
   * taken as the same `now`: an unset or zero start time gives 0.
   */
  function Duration(startTime: Option<int>, now: int): (d: int)
    ensures startTime.Some? && startTime.value != 0 ==> d + startTime.value == now
    ensures startTime.None? || startTime.value == 0 ==> d == 0
  {
    if startTime.Some? && startTime.value != 0 then now - startTime.value else 0
  }

  /** `${duration}ms`. */
  function ResponseTimeText(duration: int): string {
    IntToString(duration) + "ms"
  }

  /** A non-negative response time reads back with `parseInt`, which stops at the unit. */
  lemma ResponseTimeReadsBack(duration: nat)
    ensures ParseInt(ResponseTimeText(duration)) == Some(duration)
  {
    var d := NatToString(duration);
    var s := d + "ms";
    assert ResponseTimeText(duration) == s;
    assert s[0] == d[0];
    assert TrimStart(s) == s;
    assert SignStripped(s) == s;
    Actions.DigitPrefixStops(d, "ms");
    NatToStringRoundTrip(duration);
  }

  const AddedHeaderNames: set<string> := {"X-Proxied-By", "X-Service-Name", "X-Response-Time"}

  /** The three headers onProxyRes adds; every other upstream header passes through. */
  function TaggedHeaders(h: Headers, serviceName: string, duration: int): (t: Headers)
    ensures t.Keys == h.Keys + AddedHeaderNames
    ensures forall k :: k in h && k !in AddedHeaderNames ==> t[k] == h[k]
    ensures t["X-Proxied-By"] == "API-Gateway"
    ensures t["X-Service-Name"] == serviceName
    ensures t["X-Response-Time"] == ResponseTimeText(duration)
  {
    h["X-Proxied-By" := "API-Gateway"]["X-Service-Name" := serviceName]["X-Response-Time" := ResponseTimeText(duration)]
  }

  /** `statusCode >= 500 ? 'error' : statusCode >= 400 ? 'warn' : 'info'`, a missing status counting as 0. */
  function ProxyLogLevel(statusCode: Option<int>): (l: Logger.Level)
    ensures l == Logger.ErrorLevel <==> statusCode.GetOr(0) >= 500
    ensures l == Logger.WarnLevel <==> 400 <= statusCode.GetOr(0) < 500
    ensures l == Logger.InfoLevel <==> statusCode.GetOr(0) < 400
  {
    var s := statusCode.GetOr(0);
    if s >= 500 then Logger.ErrorLevel else if s >= 400 then Logger.WarnLevel else Logger.InfoLevel
  }

  /** A worse upstream status is never logged at a less severe level. */
  lemma ProxyLogLevelMonotone(a: int, b: int)
    requires a <= b
    ensures Logger.Severity(ProxyLogLevel(Some(b))) <= Logger.Severity(ProxyLogLevel(Some(a)))
  {
  }

  /** The upstream reply http-proxy hands to the hook before relaying it. */
  class ProxyResponse {
    var statusCode: Option<int>
    var headers: Headers

    constructor (statusCode: Option<int>, headers: Headers)
      ensures this.statusCode == statusCode && this.headers == headers
    {
      this.statusCode := statusCode;
      this.headers := headers;
    }

    /** onProxyRes: tags the headers in place and reports the level the reply is logged at. */
    method OnProxyRes(config: ServiceConfig, startTime: Option<int>, now: int) returns (level: Logger.Level)
      modifies this
      ensures headers == TaggedHeaders(old(headers), config.name, Duration(startTime, now))
      ensures statusCode == old(statusCode)
      ensures level == ProxyLogLevel(statusCode)
    {
      var duration := Duration(startTime, now);
      level := ProxyLogLevel(statusCode);
      headers := headers["X-Proxied-By" := "API-Gateway"];
      headers := headers["X-Service-Name" := config.name];
      headers := headers["X-Response-Time" := ResponseTimeText(duration)];
    }
  }

  // ---------------------------------------------------------------------
  // Path rewrite and mount matching
  // ---------------------------------------------------------------------

  /** `{ ['^' + pathPrefix]: pathRewrite }`, with the prefix read literally. */
  datatype RewriteRule = RewriteRule(prefix: string, replacement: string)

  /** The rule applied to the original URL: only a leading prefix is replaced. */
  function RewritePath(rule: RewriteRule, path: string): (r: string)
    ensures StartsWith(path, rule.prefix) ==>
      StartsWith(r, rule.replacement) && r[|rule.replacement|..] == path[|rule.prefix|..]
    ensures !StartsWith(path, rule.prefix) ==> r == path
  {
    if StartsWith(path, rule.prefix) then rule.replacement + path[|rule.prefix|..] else path
  }

  /** The reverse rule undoes a rewrite that applied. */
  lemma RewriteRoundTrip(rule: RewriteRule, path: string)
    requires StartsWith(path, rule.prefix)
    ensures RewritePath(RewriteRule(rule.replacement, rule.prefix), RewritePath(rule, path)) == path
  {
    var r := RewritePath(rule, path);
    assert r[..|rule.replacement|] == rule.replacement;
    assert rule.prefix + path[|rule.prefix|..] == path;
  }

  /** The mount path Express matches: a trailing slash of the prefix is not significant. */
  function MountPath(prefix: string): (p: string)
    ensures StartsWith(prefix, p) && |prefix| - 1 <= |p|
    ensures p == prefix || p + "/" == prefix
    ensures (|prefix| == 0 || prefix[|prefix| - 1] != '/') ==> p == prefix
  {
    if |prefix| > 0 && prefix[|prefix| - 1] == '/' then prefix[..|prefix| - 1] else prefix
  }

  /** `router.use(prefix, ...)` is entered for the prefix itself and for paths below it. */
  predicate MountMatches(prefix: string, path: string) {
    var p := MountPath(prefix);
    path == p || StartsWith(path, p + "/")
  }

  /** A mount matches exactly at a segment boundary: `/api/auth` does not take `/api/authx`. */
  lemma MountAtSegmentBoundary(prefix: string, path: string)
    ensures var p := MountPath(prefix);
      MountMatches(prefix, path) <==> StartsWith(path, p) && (|path| == |p| || path[|p|] == '/')
  {
    var p := MountPath(prefix);
    if StartsWith(path, p) && |path| > |p| && path[|p|] == '/' {
      assert path[..|p + "/"|] == path[..|p|] + [path[|p|]];
    }
    if StartsWith(path, p + "/") {
      assert path[..|p|] == (p + "/")[..|p|];
    }
  }

  /** A prefix with or without its trailing slash mounts at the same paths. */
  lemma MountIgnoresTrailingSlash(prefix: string, path: string)
    requires |prefix| == 0 || prefix[|prefix| - 1] != '/'
    ensures MountMatches(prefix, path) <==> path == prefix || StartsWith(path, prefix + "/")
    ensures MountMatches(prefix + "/", path) <==> MountMatches(prefix, path)
  {
    assert (prefix + "/")[..|prefix + "/"| - 1] == prefix;
  }

  /** `/api/auth` takes itself and the paths below it, but not `/api/authx` or `/api`. */
  lemma AuthMountClaims()
    ensures MountMatches("/api/auth", "/api/auth")
    ensures MountMatches("/api/auth", "/api/auth/login")
    ensures MountMatches("/api/auth/", "/api/auth/login")
    ensures !MountMatches("/api/auth", "/api/authx")
    ensures !MountMatches("/api/auth", "/api")
  {
    MountAtSegmentBoundary("/api/auth", "/api/authx");
    assert "/api/authx"[9] == 'x';
    MountIgnoresTrailingSlash("/api/auth", "/api/auth/login");
    assert "/api/auth/login"[..10] == "/api/auth/";
  }

  // ---------------------------------------------------------------------
  // Handler outcomes
  // ---------------------------------------------------------------------

  /** A handler's effect: the reply afterwards and how the handler ended. */
  datatype Step = Step(reply: Option<Reply>, flow: Flow)

  /**
   * `res.json(...)` followed by `after`: when a reply has already gone out
   * the call throws, and Express turns the throw into `next(err)`.
   */
  function Write(reply: Option<Reply>, r: Reply, after: Flow): (st: Step)
    ensures reply.None? ==> st == Step(Some(r), after)
    ensures reply.Some? ==> st == Step(reply, NextError(HeadersSentError))
  {
    if reply.None? then Step(Some(r), after) else Step(reply, NextError(HeadersSentError))
  }

  /** The gateway's configuration as the handlers read it; `PORT` is `None` when it is `NaN`. */
  datatype GatewayEnv = GatewayEnv(nodeEnv: string, port: Option<int>)

  const GatewayVersion := "1.0.0"

  // ---------------------------------------------------------------------
  // Root
  // ---------------------------------------------------------------------

  function WelcomeFields(env: GatewayEnv, timestamp: string): seq<Field> {
    [("success", JBool(true)), ("message", JStr("Welcome to the API Gateway")), ("version", JStr(GatewayVersion)),
     ("environment", JStr(env.nodeEnv)), ("timestamp", JStr(timestamp))]
  }

  function WelcomeReply(env: GatewayEnv, timestamp: string): Reply {
    JsonReply(200, JObj(WelcomeFields(env, timestamp)))
  }

  function RootStep(path: string, reply: Option<Reply>, env: GatewayEnv, timestamp: string): Step {
    if path == "/" then Write(reply, WelcomeReply(env, timestamp), Next) else Step(reply, Next)
  }

  /** rootRedirectMiddleware: answers `/` with the welcome document and calls `next()` in every case. */
  method RootMiddleware(req: Request, res: Response, env: GatewayEnv, timestamp: string) returns (flow: Flow)
    modifies res
    ensures Step(res.reply, flow) == RootStep(req.path, old(res.reply), env, timestamp)
  {
    if req.path == "/" {
      var ok := res.Send(WelcomeReply(env, timestamp));
      if !ok {
        return NextError(HeadersSentError);
      }
    }
    flow := Next;
  }

  // ---------------------------------------------------------------------
  // Health
  // ---------------------------------------------------------------------

  function OptBool(key: string, v: Option<bool>): seq<Field> {
    if v.Some? then [(key, JBool(v.value))] else []
  }

  /** The projection of one service; `undefined` properties are dropped. */
  function ServiceSummary(c: ServiceConfig): Json {
    JObj([("name", JStr(c.name))] + OptStr("displayName", c.displayName) + [("url", JStr(c.url))]
         + OptStr("proxyPath", c.proxyPath) + OptBool("enabled", c.enabled))
  }

  function Summaries(s: seq<ServiceConfig>): (r: seq<Json>)
    ensures |r| == |s|
    ensures forall i :: 0 <= i < |s| ==> r[i] == ServiceSummary(s[i])
  {
    if s == [] then [] else [ServiceSummary(s[0])] + Summaries(s[1..])
  }

  /** The `enabled` flags, one per service, in order. */
  function Flags(s: seq<ServiceConfig>): (f: seq<Option<bool>>)
    ensures |f| == |s|
    ensures forall i :: 0 <= i < |s| ==> f[i] == s[i].enabled
  {
    if s == [] then [] else [s[0].enabled] + Flags(s[1..])
  }

  /** `services.filter((s) => s.enabled).length`: only a flag that is `true` is counted. */
  function CountEnabled(s: seq<ServiceConfig>): (n: nat)
    ensures n <= |s|
  {
    if s == [] then 0 else (if s[0].enabled == Some(true) then 1 else 0) + CountEnabled(s[1..])
  }

  /** The count is the number of services whose flag is `true`. */
  lemma {:induction false} CountEnabledCounts(s: seq<ServiceConfig>)
    ensures CountEnabled(s) == multiset(Flags(s))[Some(true)]
  {
    if s != [] {
      CountEnabledCounts(s[1..]);
      assert Flags(s) == [s[0].enabled] + Flags(s[1..]);
    }
  }

  /** Every listed service is counted exactly when every flag is `true`. */
  lemma {:induction false} CountEnabledAll(s: seq<ServiceConfig>)
    ensures CountEnabled(s) == |s| <==> forall i :: 0 <= i < |s| ==> s[i].enabled == Some(true)
  {
    if s != [] {
      CountEnabledAll(s[1..]);
      assert forall i :: 1 <= i < |s| ==> s[i] == s[1..][i - 1];
      if s[0].enabled != Some(true) {
        assert CountEnabled(s) == CountEnabled(s[1..]);
      }
    }
  }

  /** Dropping the disabled services does not change the count, so `active` counts the whole registry. */
  lemma {:induction false} CountEnabledOfActive(s: seq<ServiceConfig>)
    ensures CountEnabled(ActiveOf(s)) == CountEnabled(s)
  {
    if s != [] {
      CountEnabledOfActive(s[1..]);
      if IsActive(s[0]) {
        assert ActiveOf(s) == [s[0]] + ActiveOf(s[1..]);
        assert ([s[0]] + ActiveOf(s[1..]))[1..] == ActiveOf(s[1..]);
      }
    }
  }

  function ServicesSection(s: seq<ServiceConfig>): Json {
    JObj([("total", JNum(|s|)), ("active", JNum(CountEnabled(s))), ("list", JArr(Summaries(s)))])
  }

  function PortJson(port: Option<int>): Json {
    if port.Some? then JNum(port.value) else JNull
  }

  function HealthFields(reg: Registry, env: GatewayEnv, uptime: Json, timestamp: string): seq<Field> {
    [("success", JBool(true)),
     ("status", JStr("healthy")),
     ("uptime", uptime),
     ("timestamp", JStr(timestamp)),
     ("environment", JStr(env.nodeEnv)),
     ("gateway", JObj([("name", JStr("API Gateway")), ("port", PortJson(env.port)), ("version", JStr(GatewayVersion))])),
     ("services", ServicesSection(GetActiveServices(reg)))]
  }

  /** The health document with the process uptime (whole seconds) rendered by formatTime. */
  function HealthReply(reg: Registry, env: GatewayEnv, uptimeSeconds: nat, timestamp: string): Reply {
    JsonReply(200, JObj(HealthFields(reg, env, JStr(Actions.FormatTime(uptimeSeconds)), timestamp)))
  }

  /**
   * The services section lists the active services, in registry order;
   * `active` never exceeds `total`.
   */
  lemma HealthServices(reg: Registry, env: GatewayEnv, uptime: Json, timestamp: string)
    ensures var fs := HealthFields(reg, env, uptime, timestamp);
      var active := GetActiveServices(reg);
      && UniqueKeys(fs)
      && Get(fs, "status") == Some(JStr("healthy"))
      && Get(fs, "uptime") == Some(uptime)
      && Get(fs, "services") == Some(JObj([("total", JNum(|active|)), ("active", JNum(CountEnabled(active))),
                                           ("list", JArr(Summaries(active)))]))
      && CountEnabled(active) <= |active|
      && CountEnabled(active) == CountEnabled(GetAllServices(reg))
  {
    var fs := HealthFields(reg, env, uptime, timestamp);
    GetFirst(fs, 1);
    GetFirst(fs, 2);
    GetFirst(fs, 6);
    CountEnabledOfActive(GetAllServices(reg));
  }

  /** A service whose flag is unset is listed by health but not counted as active. */
  lemma UnsetFlagListedNotCounted(c: ServiceConfig)
    requires c.enabled.None?
    ensures ActiveOf([c]) == [c]
    ensures CountEnabled([c]) == 0
  {
  }

  function HealthStep(path: string, reply: Option<Reply>, reg: Registry, env: GatewayEnv, uptimeSeconds: nat, timestamp: string): Step {
    if path == "/health" then Write(reply, HealthReply(reg, env, uptimeSeconds, timestamp), Next) else Step(reply, Next)
  }

  /** healthCheckMiddleware: answers `/health` and calls `next()` in every case. */
  method HealthMiddleware(req: Request, res: Response, reg: Registry, env: GatewayEnv, uptimeSeconds: nat, timestamp: string)
    returns (flow: Flow)
    modifies res
    ensures Step(res.reply, flow) == HealthStep(req.path, old(res.reply), reg, env, uptimeSeconds, timestamp)
  {
    if req.path == "/health" {
      var ok := res.Send(HealthReply(reg, env, uptimeSeconds, timestamp));
      if !ok {
        return NextError(HeadersSentError);
      }
    }
    flow := Next;
  }

  // ---------------------------------------------------------------------
  // Timer and service proxy
  // ---------------------------------------------------------------------

  /** requestTimer: stamps the request and passes it on. */
  method RequestTimer(req: Request, now: int) returns (flow: Flow)
    modifies req
    ensures req.startTime == Some(now) && flow == Next
    ensures req.user == old(req.user) && req.session == old(req.session)
  {
    req.startTime := Some(now);
    flow := Next;
  }

  /** The request as the proxy hooks read it. */
  datatype Incoming = Incoming(verb: string, path: string, originalUrl: string, body: Option<Json>)

  function View(req: Request): Incoming {
    Incoming(req.verb, req.path, req.originalUrl, req.body)
  }

  /** What reaches the backend: the target, the rewritten URL, and the hook's headers and bytes. */
  datatype Outgoing = Outgoing(target: string, url: string, headers: Headers, content: seq<Utf8.Byte>)

  /** How the backend answered: a reply to relay, or a socket error. */
  datatype Upstream = Answered(status: int, headers: Headers, content: seq<int>) | Unreachable(err: HttpError)

  /** The outgoing request the proxy builds from a fresh `proxyReq`. */
  function OutgoingOf(req: Incoming, config: ServiceConfig, rule: RewriteRule, stringify: Json -> string): Outgoing {
    var url := RewritePath(rule, req.originalUrl);
    if ForwardsBody(req.verb, req.body) then
      var text := stringify(req.body.value);
      Outgoing(config.url, url, BodyHeaders(map[], text), Utf8.Encode(text))
    else
      Outgoing(config.url, url, map[], [])
  }

  /** The reply relayed to the client for a backend answer. */
  function RelayedReply(config: ServiceConfig, status: int, headers: Headers, content: seq<int>, startTime: Option<int>, now: int): Reply {
    Reply(status, TaggedHeaders(headers, config.name, Duration(startTime, now)), Relayed(content))
  }

  /**
   * The proxy middleware: it never calls `next`. A relayed reply goes out
   * only if nothing was sent before; a socket error takes the
   * handleProxyError path with the service's display name.
   */
  function ProxyStep(req: Incoming, reply: Option<Reply>, startTime: Option<int>, config: ServiceConfig, rule: RewriteRule,
                     backend: Outgoing -> Upstream, stringify: Json -> string, now: int, timestamp: string): Step
  {
    match backend(OutgoingOf(req, config, rule, stringify))
    case Answered(status, headers, content) =>
      Step(if reply.None? then Some(RelayedReply(config, status, headers, content, startTime, now)) else reply, Done)
    case Unreachable(err) =>
      Step(if reply.None? then Some(ProxyErrorReply(err, config.displayName, timestamp)) else reply, Done)
  }

  /** The proxy created by createServiceProxy, run on one request. */
  method ServiceProxy(req: Request, res: Response, config: ServiceConfig, rule: RewriteRule,
                      backend: Outgoing -> Upstream, stringify: Json -> string, now: int, timestamp: string)
    returns (flow: Flow)
    modifies res
    ensures Step(res.reply, flow) == ProxyStep(View(req), old(res.reply), req.startTime, config, rule, backend, stringify, now, timestamp)
  {
    var proxyReq := new ProxyRequest();
    proxyReq.OnProxyReq(req.verb, req.body, stringify);
    var out := Outgoing(config.url, RewritePath(rule, req.originalUrl), proxyReq.headers, proxyReq.written);
    assert out == OutgoingOf(View(req), config, rule, stringify);
    var up := backend(out);
    match up {
      case Answered(status, headers, content) =>
        var proxyRes := new ProxyResponse(Some(status), headers);
        var level := proxyRes.OnProxyRes(config, req.startTime, now);
        var ok := res.Send(Reply(status, proxyRes.headers, Relayed(content)));
      case Unreachable(err) =>
        HandleProxyError(err, res, config.displayName, timestamp);
    }
    flow := Done;
  }

  // ---------------------------------------------------------------------
  // 404 and global error handler
  // ---------------------------------------------------------------------

  function RouteList(routes: seq<string>): (r: seq<Json>)
    ensures |r| == |routes|
    ensures forall i :: 0 <= i < |routes| ==> r[i] == JStr(routes[i])
  {
    if routes == [] then [] else [JStr(routes[0])] + RouteList(routes[1..])
  }

  function NotFoundFields(originalUrl: string, routes: seq<string>, timestamp: string): seq<Field> {
    [("success", JBool(false)), ("error", JStr("Not Found")), ("message", JStr("The requested endpoint does not exist")),
     ("path", JStr(originalUrl)), ("availableRoutes", JArr(RouteList(routes))), ("timestamp", JStr(timestamp))]
  }

  function NotFoundReply(originalUrl: string, routes: seq<string>, timestamp: string): Reply {
    JsonReply(404, JObj(NotFoundFields(originalUrl, routes, timestamp)))
  }

  /** The 404 document echoes the original URL and lists the given prefixes in order. */
  lemma NotFoundDocument(originalUrl: string, routes: seq<string>, timestamp: string)
    ensures var fs := NotFoundFields(originalUrl, routes, timestamp);
      && UniqueKeys(fs)
      && Get(fs, "error") == Some(JStr("Not Found"))
      && Get(fs, "path") == Some(JStr(originalUrl))
      && Get(fs, "availableRoutes") == Some(JArr(RouteList(routes)))
  {
    var fs := NotFoundFields(originalUrl, routes, timestamp);
    GetFirst(fs, 1);
    GetFirst(fs, 3);
    GetFirst(fs, 4);
  }

  function NotFoundStep(originalUrl: string, reply: Option<Reply>, routes: seq<string>, timestamp: string): Step {
    Write(reply, NotFoundReply(originalUrl, routes, timestamp), Done)
  }

  /** The 404 handler: ends the request; if a reply already went out, the write throws. */
  method NotFoundHandler(req: Request, res: Response, routes: seq<string>, timestamp: string) returns (flow: Flow)
    modifies res
    ensures Step(res.reply, flow) == NotFoundStep(req.originalUrl, old(res.reply), routes, timestamp)
  {
    var ok := res.Send(NotFoundReply(req.originalUrl, routes, timestamp));
    flow := if ok then Done else NextError(HeadersSentError);
  }

  const ProductionText := "An unexpected error occurred"

  /** In production the error's own message is not shown. */
  function GlobalErrorMessage(err: HttpError, nodeEnv: string): (m: string)
    ensures nodeEnv == "production" ==> m == ProductionText
    ensures nodeEnv != "production" ==> m == err.message
  {
    if nodeEnv == "production" then ProductionText else err.message
  }

  function GlobalErrorFields(err: HttpError, nodeEnv: string, timestamp: string): seq<Field> {
    [("success", JBool(false)), ("error", JStr("Internal Server Error")),
     ("message", JStr(GlobalErrorMessage(err, nodeEnv))), ("timestamp", JStr(timestamp))]
  }

  /** The status is `err.statusCode || 500`, as errorHandler in the shared middleware computes it. */
  function GlobalErrorReply(err: HttpError, nodeEnv: string, timestamp: string): Reply {
    JsonReply(ErrorMiddleware.ErrorStatus(err.statusCode), JObj(GlobalErrorFields(err, nodeEnv, timestamp)))
  }

  /** Two errors that differ only in their message get the same production reply. */
  lemma ProductionHidesMessage(a: HttpError, b: HttpError, timestamp: string)
    requires a.statusCode == b.statusCode
    ensures GlobalErrorReply(a, "production", timestamp) == GlobalErrorReply(b, "production", timestamp)
    ensures Get(GlobalErrorFields(a, "production", timestamp), "message") == Some(JStr(ProductionText))
  {
    GetFirst(GlobalErrorFields(a, "production", timestamp), 2);
  }

  function GlobalErrorStep(err: HttpError, reply: Option<Reply>, nodeEnv: string, timestamp: string): Step {
    Step(if reply.None? then Some(GlobalErrorReply(err, nodeEnv, timestamp)) else reply, Done)
  }

  /** The router's error handler: writes only while nothing has been sent, and never calls `next`. */
  method GlobalErrorHandler(err: HttpError, res: Response, nodeEnv: string, timestamp: string) returns (flow: Flow)
    modifies res
    ensures Step(res.reply, flow) == GlobalErrorStep(err, old(res.reply), nodeEnv, timestamp)
  {
    if !res.HeadersSent() {
      var ok := res.Send(GlobalErrorReply(err, nodeEnv, timestamp));
    }
    flow := Done;
  }

  /** No handler replaces a reply that has already gone out. */
  lemma StepsKeepSentReply(req: Incoming, r: Reply, reg: Registry, env: GatewayEnv, uptime: nat, startTime: Option<int>,
                           config: ServiceConfig, rule: RewriteRule, backend: Outgoing -> Upstream,
                           stringify: Json -> string, now: int, timestamp: string, routes: seq<string>, err: HttpError)
    ensures RootStep(req.path, Some(r), env, timestamp).reply == Some(r)
    ensures HealthStep(req.path, Some(r), reg, env, uptime, timestamp).reply == Some(r)
    ensures ProxyStep(req, Some(r), startTime, config, rule, backend, stringify, now, timestamp).reply == Some(r)
    ensures NotFoundStep(req.originalUrl, Some(r), routes, timestamp).reply == Some(r)
    ensures GlobalErrorStep(err, Some(r), env.nodeEnv, timestamp).reply == Some(r)
  {
  }
}
