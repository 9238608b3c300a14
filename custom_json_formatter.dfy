/** The Monolog formatter that turns one log record into one line of JSON for the ELK stack
    (Phase7/ToDo/app/Logging/CustomJsonFormatter.php). */
module CustomJsonFormatter {
  import opened Wrappers
  import opened Php

  /** Monolog's severity levels. */
  datatype Level = Debug | Info | Notice | Warning | Error | Critical | Alert | Emergency

  /** Monolog's `Level::getName()`: the upper-case name of the level. */
  function LevelName(l: Level): string {
    match l
    case Debug => "DEBUG"
    case Info => "INFO"
    case Notice => "NOTICE"
    case Warning => "WARNING"
    case Error => "ERROR"
    case Critical => "CRITICAL"
    case Alert => "ALERT"
    case Emergency => "EMERGENCY"
  }

  /** A Monolog `LogRecord`; `datetime` is already rendered with the pattern `Y-m-d\TH:i:s.uP`. */
  datatype LogRecord = LogRecord(
    datetime: string,
    level: Level,
    channel: string,
    message: string,
    context: map<string, Value>,
    extra: map<string, Value>)

  /** The keys the formatter can ever write at the top level. */
  const TopLevelKeys: set<string> :=
    {"timestamp", "level", "level_name", "channel", "message", "context", "extra", "exception"}

  /** The throwable under `context['exception']`, when `isset` holds and it is a `\Throwable`
      (a missing key, a null and any non-throwable value all give None). */
  function ExceptionOf(context: map<string, Value>): (r: Option<ThrowableInfo>)
    ensures r.Some? <==> "exception" in context && context["exception"].Throwable?
    ensures r.Some? ==> context["exception"] == Throwable(r.value)
  {
    if "exception" in context && context["exception"].Throwable? then
      Some(context["exception"].ex)
    else
      None
  }

  /** The `exception` descriptor built from a throwable's getters. */
  function Describe(e: ThrowableInfo): (d: Value)
    ensures d.Arr? && d.entries.Keys == {"class", "message", "code", "file", "line", "trace"}
    ensures d.entries["class"] == Str(e.className) && d.entries["message"] == Str(e.message)
    ensures d.entries["code"] == e.code
    ensures d.entries["file"] == Str(e.file) && d.entries["line"] == Int(e.line)
    ensures d.entries["trace"] == Str(e.trace)
  {
    Arr(map[
      "class" := Str(e.className),
      "message" := Str(e.message),
      "code" := e.code,
      "file" := Str(e.file),
      "line" := Int(e.line),
      "trace" := Str(e.trace)])
  }

  /** The context that ends up in the record: the record's context, minus `exception` when that
      entry was lifted out. */
  function RemainingContext(context: map<string, Value>): (c: map<string, Value>)
    ensures c.Keys <= context.Keys
    ensures forall k :: k in context && k != "exception" ==> k in c && c[k] == context[k]
    ensures "exception" in c <==> "exception" in context && ExceptionOf(context).None?
    ensures "exception" in c ==> c["exception"] == context["exception"]
  {
    if ExceptionOf(context).Some? then context - {"exception"} else context
  }

  /** The array built before filtering: the fixed keys, then the lifted exception. */
  function Build(r: LogRecord): (b: map<string, Value>)
    ensures b.Keys <= TopLevelKeys
    ensures "timestamp" in b && b["timestamp"] == Str(r.datetime)
    ensures "level" in b && b["level"] == Str(LevelName(r.level))
    ensures "level_name" in b && b["level_name"] == Str(LevelName(r.level))
    ensures "channel" in b && b["channel"] == Str(r.channel)
    ensures "message" in b && b["message"] == Str(r.message)
    ensures "context" in b && b["context"] == Arr(RemainingContext(r.context))
    ensures "extra" in b && b["extra"] == Arr(r.extra)
    ensures "exception" in b <==> ExceptionOf(r.context).Some?
    ensures "exception" in b ==> b["exception"] == Describe(ExceptionOf(r.context).value)
  {
    var fixed := map[
      "timestamp" := Str(r.datetime),
      "level" := Str(LevelName(r.level)),
      "level_name" := Str(LevelName(r.level)),
      "channel" := Str(r.channel),
      "message" := Str(r.message),
      "context" := Arr(RemainingContext(r.context)),
      "extra" := Arr(r.extra)];
    match ExceptionOf(r.context)
    case Some(e) => fixed["exception" := Describe(e)]
    case None => fixed
  }

  /** `array_filter` with the callback `!is_array($value) || !empty($value)`. */
  function Prune(m: map<string, Value>): (p: map<string, Value>)
    ensures p.Keys <= m.Keys
    ensures forall k :: k in m ==> (k in p <==> !m[k].IsEmptyArray())
    ensures forall k :: k in p ==> p[k] == m[k]
  {
    map k | k in m && !m[k].IsEmptyArray() :: m[k]
  }

  /** No top-level value is an empty array. */
  predicate NoEmptyArrays(m: map<string, Value>) {
    forall k :: k in m ==> !m[k].IsEmptyArray()
  }

  /** The normalized array that `format` hands to `toJson`. */
  function Normalize(r: LogRecord): (n: map<string, Value>)
    ensures n.Keys <= TopLevelKeys
    ensures NoEmptyArrays(n)
    // the five scalar keys are always present, whatever the message
    ensures "timestamp" in n && n["timestamp"] == Str(r.datetime)
    ensures "level" in n && "level_name" in n && n["level"] == n["level_name"] == Str(LevelName(r.level))
    ensures "channel" in n && n["channel"] == Str(r.channel)
    ensures "message" in n && n["message"] == Str(r.message)
    // exception extraction
    ensures ExceptionOf(r.context).Some? ==>
      "exception" in n && n["exception"] == Describe(ExceptionOf(r.context).value)
    ensures ExceptionOf(r.context).None? ==> "exception" !in n
    // context and extra survive exactly when they are non-empty
    ensures "context" in n <==> |RemainingContext(r.context)| > 0
    ensures "context" in n ==> n["context"] == Arr(RemainingContext(r.context))
    ensures "extra" in n <==> |r.extra| > 0
    ensures "extra" in n ==> n["extra"] == Arr(r.extra)
  {
    var b := Build(r);
    var n := Prune(b);
    assert "timestamp" in n && "level" in n && "level_name" in n && "channel" in n && "message" in n;
    n
  }

  /** `format`: the JSON text of the normalized array followed by one newline. `toJson` is
      Monolog's encoder, which writes no raw newline. */
  function Format(r: LogRecord, toJson: Value -> string): (line: string)
    requires forall v :: '\n' !in toJson(v)
    ensures 0 < |line| && line[|line| - 1] == '\n'
    ensures line[..|line| - 1] == toJson(Arr(Normalize(r)))
    ensures forall i :: 0 <= i < |line| - 1 ==> line[i] != '\n'
  {
    toJson(Arr(Normalize(r))) + "\n"
  }

  /** Pruning is idempotent. */
  lemma PruneIdempotent(m: map<string, Value>)
    ensures Prune(Prune(m)) == Prune(m)
  {
    assert Prune(Prune(m)).Keys == Prune(m).Keys;
  }

  /** A pruned array is exactly an array with no empty top-level array value that agrees with
      the original on every key it keeps. */
  lemma PruneFixpoints(m: map<string, Value>)
    ensures Prune(m) == m <==> NoEmptyArrays(m)
  {
    if NoEmptyArrays(m) {
      assert Prune(m).Keys == m.Keys;
    }
  }

  /** The lifted exception never stays inside `context`. */
  lemma ExceptionLeavesContext(r: LogRecord)
    requires ExceptionOf(r.context).Some?
    ensures var n := Normalize(r);
      "context" in n ==> n["context"].Arr? && "exception" !in n["context"].entries
  {
  }

  /** Every context key other than `exception` reaches the output with its value; `exception`
      itself survives only when it was not a throwable. */
  lemma ContextPreserved(r: LogRecord, k: string)
    requires k in r.context && (k != "exception" || ExceptionOf(r.context).None?)
    ensures var n := Normalize(r);
      "context" in n && k in n["context"].entries && n["context"].entries[k] == r.context[k]
  {
    assert k in RemainingContext(r.context);
  }

  /** A context holding nothing but a throwable under `exception` vanishes from the output. */
  lemma OnlyExceptionDropsContext(r: LogRecord, e: ThrowableInfo)
    requires r.context == map["exception" := Throwable(e)]
    ensures "context" !in Normalize(r)
    ensures "exception" in Normalize(r)
  {
    assert RemainingContext(r.context) == map[];
  }

  /** Normalizing the same record twice gives the same array, and re-pruning it changes nothing. */
  lemma NormalizeStable(r: LogRecord)
    ensures Prune(Normalize(r)) == Normalize(r)
  {
    PruneFixpoints(Normalize(r));
  }
}
