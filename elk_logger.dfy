/** The winston logger of the Next.js app (js-app/lib/logger.ts): the ELK record built by the
    `printf` format, the `logWithContext` helper and the choice of transports. */
module ElkLogger {
  import opened Wrappers
  import opened Ascii

  /** A JSON-serialisable JavaScript value. */
  datatype JsValue =
    | JNull
    | JBool(b: bool)
    | JNum(n: int)
    | JStr(s: string)
    | JArr(items: seq<JsValue>)
    | JObj(props: map<string, JsValue>)

  /** The keys that `printf` destructures out of the info object before the rest-spread. */
  const Destructured: set<string> := {"timestamp", "level", "message"}

  /** `String.prototype.toUpperCase` (ASCII letters only). */
  function ToUpperCase(s: string): (u: string)
    ensures |u| == |s|
    ensures forall i :: 0 <= i < |s| ==> u[i] == UpperChar(s[i])
  {
    if s == [] then [] else [UpperChar(s[0])] + ToUpperCase(s[1..])
  }

  predicate HasNoLowerAscii(s: string) {
    forall i :: 0 <= i < |s| ==> !('a' <= s[i] <= 'z')
  }

  /** Upper-casing leaves no lower-case ASCII letter and is idempotent. */
  lemma ToUpperCaseIdempotent(s: string)
    ensures HasNoLowerAscii(ToUpperCase(s))
    ensures ToUpperCase(ToUpperCase(s)) == ToUpperCase(s)
  {
  }

  /** The winston info object as `printf` receives it: its enumerable string-keyed properties.
      winston always sets `level` to a string. */
  type Info = m: map<string, JsValue> | "level" in m && m["level"].JStr? witness map["level" := JStr("info")]

  /** The rest-spread `...metadata`: every property except the three destructured ones. */
  function Metadata(info: Info): (meta: map<string, JsValue>)
    ensures meta.Keys == info.Keys - Destructured
    ensures forall k :: k in meta ==> meta[k] == info[k]
  {
    info - Destructured
  }

  /** The object that `elkFormat` passes to `JSON.stringify`, keeping only the properties that
      `JSON.stringify` writes (a destructured `timestamp` or `message` that is `undefined` is
      dropped by it). */
  function ElkRecord(info: Info): (log: map<string, JsValue>)
    ensures "level" in log && "level_name" in log
    ensures log["level"] == log["level_name"] == JStr(ToUpperCase(info["level"].s))
    ensures "channel" in log && log["channel"] == JStr("nextjs")
    ensures "timestamp" in log <==> "timestamp" in info
    ensures "timestamp" in log ==> log["timestamp"] == info["timestamp"]
    ensures "message" in log <==> "message" in info
    ensures "message" in log ==> log["message"] == info["message"]
    ensures "context" in log <==> |Metadata(info)| > 0
    ensures "context" in log ==> log["context"] == JObj(Metadata(info))
    ensures log.Keys <= {"timestamp", "level", "level_name", "channel", "message", "context"}
  {
    var level := JStr(ToUpperCase(info["level"].s));
    var fixed := map["level" := level, "level_name" := level, "channel" := JStr("nextjs")];
    var withTime := if "timestamp" in info then fixed["timestamp" := info["timestamp"]] else fixed;
    var withMessage := if "message" in info then withTime["message" := info["message"]] else withTime;
    var meta := Metadata(info);
    if |meta| > 0 then withMessage["context" := JObj(meta)] else withMessage
  }

  /** `elkFormat`: the ELK record written out by `JSON.stringify` (a parameter here), which
      escapes every newline, so each record takes exactly one line of `elk.log`. */
  function ElkFormat(info: Info, stringify: JsValue -> string): (line: string)
    requires forall v :: '\n' !in stringify(v)
    ensures line == stringify(JObj(ElkRecord(info)))
    ensures '\n' !in line
  {
    stringify(JObj(ElkRecord(info)))
  }

  /** The `context` of an ELK record never repeats the destructured keys. */
  lemma ContextExcludesDestructured(info: Info)
    ensures var log := ElkRecord(info);
      "context" in log ==> log["context"].JObj? && log["context"].props.Keys !! Destructured
  {
  }

  /** Every property of the info object other than the destructured ones reaches `context`. */
  lemma MetadataReachesContext(info: Info, k: string)
    requires k in info && k !in Destructured
    ensures var log := ElkRecord(info);
      "context" in log && k in log["context"].props && log["context"].props[k] == info[k]
  {
    assert k in Metadata(info);
  }

  /** The levels `logWithContext` accepts. */
  datatype CallLevel = Info | Warn | Error | Debug

  function CallLevelName(l: CallLevel): string {
    match l
    case Info => "info"
    case Warn => "warn"
    case Error => "error"
    case Debug => "debug"
  }

  /** The arguments `logWithContext` passes on to `logger.log`. */
  datatype LogCall = LogCall(level: string, message: string, meta: map<string, JsValue>)

  /** `logWithContext`: the caller's context spread first, then a fresh ISO timestamp
      (`now`), so the caller's own `timestamp` is overwritten. A missing context spreads as
      nothing. */
  function LogWithContext(level: CallLevel, message: string, context: Option<map<string, JsValue>>, now: string): (c: LogCall)
    ensures c.level == CallLevelName(level) && c.message == message
    ensures "timestamp" in c.meta && c.meta["timestamp"] == JStr(now)
    ensures c.meta.Keys == context.GetOr(map[]).Keys + {"timestamp"}
    ensures forall k :: k in context.GetOr(map[]) && k != "timestamp" ==> c.meta[k] == context.value[k]
  {
    LogCall(CallLevelName(level), message, context.GetOr(map[])["timestamp" := JStr(now)])
  }

  /** `process.env.LOG_LEVEL || 'info'`: an unset or empty variable falls back to `info`. */
  function ConfiguredLevel(env: Option<string>): (level: string)
    ensures env.Some? && env.value != "" ==> level == env.value
    ensures env.None? || env.value == "" ==> level == "info"
  {
    if env.Some? && env.value != "" then env.value else "info"
  }

  /** A winston transport as configured here. */
  datatype Transport =
    | FileTransport(dir: string, filename: string, maxsize: nat, maxFiles: nat)
    | ConsoleTransport

  /** The transport list: the rotating `elk.log` file, then the console iff
      `NODE_ENV === 'development'`. */
  function Transports(logsDir: string, nodeEnv: Option<string>): (ts: seq<Transport>)
    ensures 1 <= |ts| <= 2
    ensures ts[0] == FileTransport(logsDir, "elk.log", 10485760, 5)
    ensures ConsoleTransport in ts <==> nodeEnv == Some("development")
    ensures |ts| == 2 ==> ts[1] == ConsoleTransport
  {
    [FileTransport(logsDir, "elk.log", 10485760, 5)]
      + (if nodeEnv == Some("development") then [ConsoleTransport] else [])
  }
}
