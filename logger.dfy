/**
 * The shared logger (packages/service/lib/logger.ts): its level table, the
 * plain (uncoloured) line format, the context and service merge of
 * `Logger.log` and `child`, and the level `requestLogger` picks for a
 * finished response. Transports, files and colours are left out;
 * JSON.stringify is a parameter.
 */
module Logger {

  import opened Wrappers
  import opened Strings
  import opened Json

  datatype Level = ErrorLevel | WarnLevel | InfoLevel | HttpLevel | DebugLevel

  /** LOG_LEVELS: a lower number is more severe. */
  function Severity(l: Level): (n: nat)
    ensures n <= 4
  {
    match l
    case ErrorLevel => 0
    case WarnLevel => 1
    case InfoLevel => 2
    case HttpLevel => 3
    case DebugLevel => 4
  }

  function LevelName(l: Level): string {
    match l
    case ErrorLevel => "error"
    case WarnLevel => "warn"
    case InfoLevel => "info"
    case HttpLevel => "http"
    case DebugLevel => "debug"
  }

  /** The levels are strictly ordered, so no two share a severity. */
  lemma SeverityOrder()
    ensures Severity(ErrorLevel) < Severity(WarnLevel) < Severity(InfoLevel) < Severity(HttpLevel) < Severity(DebugLevel)
    ensures forall a: Level, b: Level :: Severity(a) == Severity(b) ==> a == b
  {
  }

  // ---------------------------------------------------------------------
  // CustomFormatter.format, plain branch
  // ---------------------------------------------------------------------

  /**
   * The info object winston hands the formatter, destructured as the source
   * does: six named members and the rest (`meta`). A member holds a string
   * or is absent.
   */
  datatype Info = Info(
    timestamp: string,
    level: string,
    message: string,
    context: Option<string>,
    service: Option<string>,
    stack: Option<string>,
    meta: seq<Field>)

  predicate TruthyStr(s: Option<string>) { s.Some? && s.value != "" }

  /** `delete obj[key]`. */
  function Delete(fs: seq<Field>, key: string): (r: seq<Field>)
    ensures |r| <= |fs|
    ensures forall i :: 0 <= i < |r| ==> r[i].0 != key
    ensures forall k :: k != key ==> Get(r, k) == Get(fs, k)
  {
    if fs == [] then []
    else if fs[0].0 == key then Delete(fs[1..], key)
    else [fs[0]] + Delete(fs[1..], key)
  }

  /** `cleanMeta` once timestamp, level and message are deleted. */
  function CleanMeta(meta: seq<Field>): seq<Field> {
    Delete(Delete(Delete(meta, "timestamp"), "level"), "message")
  }

  /** The plain line, as its parts: header, optional context and service, the text, optional meta JSON. */
  function PlainLine(info: Info, stringify: Json -> string): string {
    Header(info) + ContextPart(info) + ServicePart(info) + " " + Text(info) + MetaPart(info, stringify)
  }

  function Header(info: Info): string { info.timestamp + " [" + ToUpper(info.level) + "]" }

  function ContextPart(info: Info): string {
    if TruthyStr(info.context) then " [" + info.context.value + "]" else ""
  }

  function ServicePart(info: Info): string {
    if TruthyStr(info.service) then " {" + info.service.value + "}" else ""
  }

  /** `stack || message`. */
  function Text(info: Info): string {
    if TruthyStr(info.stack) then info.stack.value else info.message
  }

  function MetaPart(info: Info, stringify: Json -> string): string {
    var clean := CleanMeta(info.meta);
    if clean != [] then " " + stringify(JObj(clean)) else ""
  }

  /** CustomFormatter.format with colours off: the line grows by `+=`, and cleanMeta loses three keys in place. */
  method Format(info: Info, stringify: Json -> string) returns (logMessage: string)
    ensures logMessage == PlainLine(info, stringify)
  {
    logMessage := "";
    logMessage := logMessage + info.timestamp + " [" + ToUpper(info.level) + "]";
    assert logMessage == Header(info);
    if TruthyStr(info.context) {
      logMessage := logMessage + " [" + info.context.value + "]";
    }
    assert logMessage == Header(info) + ContextPart(info);
    if TruthyStr(info.service) {
      logMessage := logMessage + " {" + info.service.value + "}";
    }
    assert logMessage == Header(info) + ContextPart(info) + ServicePart(info);
    logMessage := logMessage + " " + (if TruthyStr(info.stack) then info.stack.value else info.message);
    assert logMessage == Header(info) + ContextPart(info) + ServicePart(info) + " " + Text(info);

    var cleanMeta := info.meta;
    cleanMeta := Delete(cleanMeta, "timestamp");
    cleanMeta := Delete(cleanMeta, "level");
    cleanMeta := Delete(cleanMeta, "message");
    assert cleanMeta == CleanMeta(info.meta);

    ghost var line := logMessage;
    if |cleanMeta| > 0 {
      logMessage := logMessage + " " + stringify(JObj(cleanMeta));
    }
    assert logMessage == line + MetaPart(info, stringify);
  }

  /** Every line starts with `timestamp [LEVEL]`. */
  lemma LineStartsWithHeader(info: Info, stringify: Json -> string)
    ensures StartsWith(PlainLine(info, stringify), Header(info))
  {
    var line := PlainLine(info, stringify);
    var rest := line[|Header(info)|..];
    assert line == Header(info) + rest;
  }

  /** The stack, when there is one, is printed instead of the message. */
  lemma StackWins(info: Info)
    ensures TruthyStr(info.stack) ==> Text(info) == info.stack.value
    ensures !TruthyStr(info.stack) ==> Text(info) == info.message
  {
  }

  /** Without context, service or remaining meta, the line is just the header and the text. */
  lemma BareLine(info: Info, stringify: Json -> string)
    requires !TruthyStr(info.context) && !TruthyStr(info.service) && info.meta == []
    ensures PlainLine(info, stringify) == Header(info) + " " + Text(info)
  {
  }

  /** Meta JSON keeps every key but timestamp, level and message, with its value. */
  lemma CleanMetaKeeps(meta: seq<Field>, k: string)
    ensures k != "timestamp" && k != "level" && k != "message" ==> Get(CleanMeta(meta), k) == Get(meta, k)
    ensures k == "timestamp" || k == "level" || k == "message" ==> Get(CleanMeta(meta), k) == None
  {
    var d1 := Delete(meta, "timestamp");
    var d2 := Delete(d1, "level");
    var d3 := Delete(d2, "message");
    if k == "timestamp" {
      GetAbsent(d1, k);
    } else if k == "level" {
      GetAbsent(d2, k);
    } else if k == "message" {
      GetAbsent(d3, k);
    }
  }

  lemma {:induction false} GetAbsent(fs: seq<Field>, key: string)
    requires forall i :: 0 <= i < |fs| ==> fs[i].0 != key
    ensures Get(fs, key) == None
  {
    if fs != [] {
      GetAbsent(fs[1..], key);
    }
  }

  /** A meta object that names none of the three keys is printed as is. */
  lemma {:induction false} DeleteAbsent(fs: seq<Field>, key: string)
    requires forall i :: 0 <= i < |fs| ==> fs[i].0 != key
    ensures Delete(fs, key) == fs
  {
    if fs != [] {
      DeleteAbsent(fs[1..], key);
    }
  }

  // ---------------------------------------------------------------------
  // Logger.log and child
  // ---------------------------------------------------------------------

  /** What reaches `baseLogger.log(level, message, meta)`. */
  datatype LogRecord = LogRecord(level: Level, message: string, meta: seq<Field>)

  class Logger {
    const context: string
    /** Set on loggers made by `child`, whose `log` is replaced to add it. */
    const service: Option<string>

    constructor (context: string)
      ensures this.context == context && service == None
    {
      this.context := context;
      service := None;
    }

    constructor Child(context: string, service: string)
      ensures this.context == context && this.service == Some(service)
    {
      this.context := context;
      this.service := Some(service);
    }

    /** The members put before the caller's meta: `context`, then `service` on a child. */
    function BaseMeta(): seq<Field>
      reads this
    {
      [("context", JStr(context))] + (if service.Some? then [("service", JStr(service.value))] else [])
    }

    /** `{ context: this.context, [service,] ...meta }`: the caller's keys override, the base keys come first. */
    method Log(level: Level, message: string, meta: Option<seq<Field>>) returns (rec: LogRecord)
      ensures rec.level == level && rec.message == message
      ensures |rec.meta| >= |BaseMeta()| && Keys(rec.meta)[..|BaseMeta()|] == Keys(BaseMeta())
      ensures UniqueKeys(meta.GetOr([])) ==> forall k ::
        Get(rec.meta, k) == if k in Keys(meta.GetOr([])) then Get(meta.GetOr([]), k) else Get(BaseMeta(), k)
    {
      var extra := meta.GetOr([]);
      var merged := Spread(BaseMeta(), extra);
      SpreadKeepsBaseOrder(BaseMeta(), extra);
      if UniqueKeys(extra) {
        forall k: string
          ensures Get(merged, k) == if k in Keys(extra) then Get(extra, k) else Get(BaseMeta(), k)
        {
          SpreadGet(BaseMeta(), extra, k);
        }
      }
      rec := LogRecord(level, message, merged);
    }

    /** `child(service)`: a logger with the same context whose records also carry the service. */
    method MakeChild(service: string) returns (c: Logger)
      ensures fresh(c)
      ensures c.context == context && c.service == Some(service)
    {
      c := new Logger.Child(context, service);
    }
  }

  // ---------------------------------------------------------------------
  // requestLogger
  // ---------------------------------------------------------------------

  /** The level for a finished response: error from 500, warn from 400, http below. */
  function RequestLevel(status: int): (l: Level)
    ensures l == ErrorLevel <==> status >= 500
    ensures l == WarnLevel <==> 400 <= status < 500
    ensures l == HttpLevel <==> status < 400
  {
    if status >= 500 then ErrorLevel else if status >= 400 then WarnLevel else HttpLevel
  }

  /** A worse status never gets a less severe level. */
  lemma RequestLevelMonotone(a: int, b: int)
    requires a <= b
    ensures Severity(RequestLevel(b)) <= Severity(RequestLevel(a))
  {
  }
}
