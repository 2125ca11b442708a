/**
 * healthCheck (packages/service/middleware/healthcheck.ts): a factory whose
 * handler answers every request with the same literal payload, except for
 * the uptime and the timestamp. Process uptime (whole seconds) and the ISO
 * 8601 timestamp are parameters.
 */
module HealthCheck {

  import opened Wrappers
  import opened Json
  import opened Express
  import Actions

  /** The factory's captured arguments. */
  datatype HealthConfig = HealthConfig(port: int, serviceName: string, version: Option<string>)

  /** The payload as `res.json` serialises it; an `undefined` version is omitted. */
  function HealthPayload(cfg: HealthConfig, uptimeSeconds: nat, timestamp: string): Json {
    JObj(PayloadFields(cfg, JStr(Actions.FormatTime(uptimeSeconds)), timestamp))
  }

  function PayloadFields(cfg: HealthConfig, uptime: Json, timestamp: string): seq<Field> {
    if cfg.version.Some? then
      [("success", JBool(true)), ("status", JStr("healthy")), ("serviceName", JStr(cfg.serviceName)),
       ("version", JStr(cfg.version.value)), ("port", JNum(cfg.port)), ("uptime", uptime), ("timestamp", JStr(timestamp))]
    else
      [("success", JBool(true)), ("status", JStr("healthy")), ("serviceName", JStr(cfg.serviceName)),
       ("port", JNum(cfg.port)), ("uptime", uptime), ("timestamp", JStr(timestamp))]
  }

  /**
   * The payload always reports success and a healthy status, echoes the
   * factory's arguments, and carries the formatted uptime and the timestamp.
   */
  lemma PayloadMembers(cfg: HealthConfig, uptimeSeconds: nat, timestamp: string)
    ensures var fs := HealthPayload(cfg, uptimeSeconds, timestamp).fields;
      Get(fs, "success") == Some(JBool(true)) &&
      Get(fs, "status") == Some(JStr("healthy")) &&
      Get(fs, "serviceName") == Some(JStr(cfg.serviceName)) &&
      Get(fs, "version") == (if cfg.version.Some? then Some(JStr(cfg.version.value)) else None) &&
      Get(fs, "port") == Some(JNum(cfg.port)) &&
      Get(fs, "uptime") == Some(JStr(Actions.FormatTime(uptimeSeconds))) &&
      Get(fs, "timestamp") == Some(JStr(timestamp))
  {
    FieldsMembers(cfg, JStr(Actions.FormatTime(uptimeSeconds)), timestamp);
  }

  lemma FieldsMembers(cfg: HealthConfig, uptime: Json, timestamp: string)
    ensures var fs := PayloadFields(cfg, uptime, timestamp);
      Get(fs, "success") == Some(JBool(true)) &&
      Get(fs, "status") == Some(JStr("healthy")) &&
      Get(fs, "serviceName") == Some(JStr(cfg.serviceName)) &&
      Get(fs, "version") == (if cfg.version.Some? then Some(JStr(cfg.version.value)) else None) &&
      Get(fs, "port") == Some(JNum(cfg.port)) &&
      Get(fs, "uptime") == Some(uptime) &&
      Get(fs, "timestamp") == Some(JStr(timestamp))
  {
    var fs := PayloadFields(cfg, uptime, timestamp);
    if cfg.version.Some? {
      VersionedMembers(fs, cfg.serviceName, cfg.version.value, cfg.port, uptime, timestamp);
    } else {
      UnversionedMembers(fs, cfg.serviceName, cfg.port, uptime, timestamp);
    }
  }

  lemma VersionedMembers(fs: seq<Field>, name: string, version: string, port: int, uptime: Json, timestamp: string)
    requires fs == [("success", JBool(true)), ("status", JStr("healthy")), ("serviceName", JStr(name)),
                    ("version", JStr(version)), ("port", JNum(port)), ("uptime", uptime), ("timestamp", JStr(timestamp))]
    ensures Get(fs, "success") == Some(JBool(true)) && Get(fs, "status") == Some(JStr("healthy"))
    ensures Get(fs, "serviceName") == Some(JStr(name)) && Get(fs, "version") == Some(JStr(version))
    ensures Get(fs, "port") == Some(JNum(port)) && Get(fs, "uptime") == Some(uptime)
    ensures Get(fs, "timestamp") == Some(JStr(timestamp))
  {
    GetFirst(fs, 0);
    GetFirst(fs, 1);
    GetFirst(fs, 2);
    GetFirst(fs, 3);
    GetFirst(fs, 4);
    GetFirst(fs, 5);
    GetFirst(fs, 6);
  }

  lemma UnversionedMembers(fs: seq<Field>, name: string, port: int, uptime: Json, timestamp: string)
    requires fs == [("success", JBool(true)), ("status", JStr("healthy")), ("serviceName", JStr(name)),
                    ("port", JNum(port)), ("uptime", uptime), ("timestamp", JStr(timestamp))]
    ensures Get(fs, "success") == Some(JBool(true)) && Get(fs, "status") == Some(JStr("healthy"))
    ensures Get(fs, "serviceName") == Some(JStr(name)) && Get(fs, "version") == None
    ensures Get(fs, "port") == Some(JNum(port)) && Get(fs, "uptime") == Some(uptime)
    ensures Get(fs, "timestamp") == Some(JStr(timestamp))
  {
    GetFirst(fs, 0);
    GetFirst(fs, 1);
    GetFirst(fs, 2);
    GetFirst(fs, 3);
    GetFirst(fs, 4);
    GetFirst(fs, 5);
    GetSomeIff(fs, "version");
    assert Keys(fs) == ["success", "status", "serviceName", "port", "uptime", "timestamp"];
  }

  /** Two calls of one handler agree on every member except uptime and timestamp. */
  lemma OnlyUptimeAndTimestampVary(cfg: HealthConfig, up1: nat, ts1: string, up2: nat, ts2: string, key: string)
    requires key != "uptime" && key != "timestamp"
    ensures Get(HealthPayload(cfg, up1, ts1).fields, key) == Get(HealthPayload(cfg, up2, ts2).fields, key)
  {
    var a, b := HealthPayload(cfg, up1, ts1).fields, HealthPayload(cfg, up2, ts2).fields;
    GetAgrees(a, b, key);
  }

  /** Lookups agree in two field lists with the same keys whose values agree at `key`. */
  lemma {:induction false} GetAgrees(a: seq<Field>, b: seq<Field>, key: string)
    requires |a| == |b|
    requires forall i :: 0 <= i < |a| ==> a[i].0 == b[i].0 && (a[i].0 == key ==> a[i].1 == b[i].1)
    ensures Get(a, key) == Get(b, key)
  {
    if a != [] {
      GetAgrees(a[1..], b[1..], key);
    }
  }

  /** The handler ignores the request and writes the payload with status 200. */
  method Handle(cfg: HealthConfig, uptimeSeconds: nat, timestamp: string, res: Response) returns (ok: bool)
    modifies res
    ensures ok <==> old(res.reply).None?
    ensures res.reply == if ok then Some(JsonReply(200, HealthPayload(cfg, uptimeSeconds, timestamp))) else old(res.reply)
  {
    ok := res.Send(JsonReply(200, HealthPayload(cfg, uptimeSeconds, timestamp)));
  }
}
