/** The log-generation endpoints (Application-Logger/app/Http/Controllers/LogTestController.php).
    Every `rand()`, `array_rand()`, clock and memory reading is a parameter, so what remains are the
    deterministic rules: the weighted level choice, the level-to-status table, the IP format, the
    batch size cap and the fixed event sequences. */
module LogTestController {
  import opened Wrappers
  import opened Php
  import opened Decimal
  import opened LogFacade
  import opened Ascii

  // ---------------------------------------------------------------- getRandomLogLevel

  /** The level table with its percentages, in iteration order. */
  const LevelWeights: seq<(string, int)> :=
    [("debug", 30), ("info", 40), ("warning", 15), ("error", 10), ("critical", 5)]

  /** The sum of the first `n` weights: the running total after `n` iterations. */
  function Cumulative(n: nat): int
    requires n <= |LevelWeights|
  {
    if n == 0 then 0 else Cumulative(n - 1) + LevelWeights[n - 1].1
  }

  lemma CumulativeThresholds()
    ensures Cumulative(1) == 30 && Cumulative(2) == 70 && Cumulative(3) == 85
    ensures Cumulative(4) == 95 && Cumulative(5) == 100
  {
    assert Cumulative(1) == 30;
    assert Cumulative(2) == 70;
    assert Cumulative(3) == 85;
    assert Cumulative(4) == 95;
  }

  /** The level a draw selects, stated by its ranges: 1-30 debug, 31-70 info, 71-85 warning,
      86-95 error, 96-100 critical; any draw above 100 falls through to `info`. */
  function WeightedLevel(draw: int): (level: string)
    ensures level in KnownLevels
  {
    if draw <= 30 then "debug"
    else if draw <= 70 then "info"
    else if draw <= 85 then "warning"
    else if draw <= 95 then "error"
    else if draw <= 100 then "critical"
    else "info"
  }

  /** `getRandomLogLevel`, with `draw` the value of `rand(1, 100)`. */
  method RandomLogLevel(draw: int) returns (level: string)
    ensures level == WeightedLevel(draw)
  {
    var cumulative := 0;
    var i := 0;
    while i < |LevelWeights|
      invariant 0 <= i <= |LevelWeights|
      invariant cumulative == Cumulative(i)
      invariant i == 0 || draw > cumulative
    {
      cumulative := cumulative + LevelWeights[i].1;
      CumulativeThresholds();
      if draw <= cumulative {
        return LevelWeights[i].0;
      }
      i := i + 1;
    }
    // the weights sum to 100, so only a draw above 100 reaches the fallback
    assert draw > 100;
    return "info";
  }

  // ---------------------------------------------------------------- getRandomStatusCode

  /** `$statusCodes[$level] ?? [200]`. */
  function StatusCodes(level: string): (codes: seq<int>)
    ensures |codes| > 0
  {
    match level
    case "debug" => [200, 201]
    case "info" => [200, 201, 202]
    case "warning" => [400, 401, 403, 429]
    case "error" => [500, 502, 503]
    case "critical" => [500, 503, 504]
    case _ => [200]
  }

  const KnownLevels: set<string> := {"debug", "info", "warning", "error", "critical"}

  /** `getRandomStatusCode`; `array_rand`'s choice of key is `pick` modulo the table's size. */
  function RandomStatusCode(level: string, pick: nat): (code: int)
    ensures code in StatusCodes(level)
    ensures level == "debug" || level == "info" ==> 200 <= code <= 202
    ensures level == "warning" ==> 400 <= code <= 429
    ensures level == "error" || level == "critical" ==> 500 <= code <= 504
    ensures level !in KnownLevels ==> code == 200
  {
    var codes := StatusCodes(level);
    codes[pick % |codes|]
  }

  // ---------------------------------------------------------------- getRandomIp

  /** `getRandomIp`, with the four `rand` results as parameters. */
  function RandomIp(a: nat, b: nat, c: nat, d: nat): (ip: string)
    ensures |ip| >= 7
    ensures forall i :: 0 <= i < |ip| ==> ip[i] == '.' || IsDigit(ip[i])
  {
    NatToString(a) + "." + NatToString(b) + "." + NatToString(c) + "." + NatToString(d)
  }

  /** The pieces of `s` between occurrences of `sep` (PHP's `explode`). */
  function SplitOn(s: string, sep: char): (parts: seq<string>)
    ensures |parts| >= 1
  {
    if |s| == 0 then [""]
    else
      var rest := SplitOn(s[1..], sep);
      if s[0] == sep then [""] + rest else [[s[0]] + rest[0]] + rest[1..]
  }

  lemma {:induction false} SplitOnNoSeparator(x: string, sep: char)
    requires sep !in x
    ensures SplitOn(x, sep) == [x]
  {
    if |x| > 0 {
      SplitOnNoSeparator(x[1..], sep);
      assert [x[0]] + x[1..] == x;
    }
  }

  lemma {:induction false} SplitOnFirst(x: string, sep: char, y: string)
    requires sep !in x
    ensures SplitOn(x + [sep] + y, sep) == [x] + SplitOn(y, sep)
  {
    if |x| > 0 {
      assert (x + [sep] + y)[1..] == x[1..] + [sep] + y;
      SplitOnFirst(x[1..], sep, y);
      assert [x[0]] + x[1..] == x;
    } else {
      assert (x + [sep] + y)[1..] == y;
    }
  }

  lemma DigitsHaveNoDot(s: string)
    requires AllDigits(s)
    ensures '.' !in s
  {
    assert forall i :: 0 <= i < |s| ==> s[i] != '.';
  }

  /** Four dot-free pieces joined by dots split back into those four pieces. */
  lemma SplitFour(sa: string, sb: string, sc: string, sd: string)
    requires '.' !in sa && '.' !in sb && '.' !in sc && '.' !in sd
    ensures SplitOn(sa + "." + sb + "." + sc + "." + sd, '.') == [sa, sb, sc, sd]
  {
    assert sa + "." + sb + "." + sc + "." + sd == sa + ['.'] + (sb + ['.'] + (sc + ['.'] + sd));
    SplitOnFirst(sa, '.', sb + ['.'] + (sc + ['.'] + sd));
    SplitOnFirst(sb, '.', sc + ['.'] + sd);
    SplitOnFirst(sc, '.', sd);
    SplitOnNoSeparator(sd, '.');
  }

  /** The address is four dot-separated decimal octets that read back as the four draws:
      the first and last in 1..255, the middle two in 0..255. */
  lemma {:induction false} RandomIpOctets(a: int, b: int, c: int, d: int)
    requires 1 <= a <= 255 && 0 <= b <= 255 && 0 <= c <= 255 && 1 <= d <= 255
    ensures var parts := SplitOn(RandomIp(a, b, c, d), '.');
      |parts| == 4 && (forall i :: 0 <= i < 4 ==> AllDigits(parts[i]))
      && ParseNat(parts[0]) == a && ParseNat(parts[1]) == b
      && ParseNat(parts[2]) == c && ParseNat(parts[3]) == d
  {
    var sa, sb, sc, sd := NatToString(a), NatToString(b), NatToString(c), NatToString(d);
    DigitsHaveNoDot(sa); DigitsHaveNoDot(sb); DigitsHaveNoDot(sc); DigitsHaveNoDot(sd);
    SplitFour(sa, sb, sc, sd);
    ParseNatToString(a); ParseNatToString(b); ParseNatToString(c); ParseNatToString(d);
  }

  // ---------------------------------------------------------------- batchLogs

  const Actions: seq<string> := ["login", "logout", "view_page", "api_call", "database_query", "file_upload"]
  const Operations: seq<string> := ["INSERT", "UPDATE", "DELETE", "SELECT"]

  /** PHP's `ucfirst` (ASCII). */
  function Ucfirst(s: string): (u: string)
    ensures |u| == |s| && (|s| > 0 ==> u[1..] == s[1..])
    ensures |s| > 0 && 'a' <= s[0] <= 'z' ==> u[0] as int == s[0] as int - 32 && 'A' <= u[0] <= 'Z'
    ensures !(|s| > 0 && 'a' <= s[0] <= 'z') ==> u == s
  {
    if |s| > 0 then [UpperChar(s[0])] + s[1..] else s
  }

  /** The random values one iteration of the batch loop draws. */
  datatype BatchDraw = BatchDraw(
    userId: int,
    actionPick: nat,
    levelDraw: int,
    operationPick: nat,
    responseTime: int,
    statusPick: nat,
    ip: (nat, nat, nat, nat),
    sessionId: string,
    timestamp: string)

  /** `$array[array_rand($array)]`, with `array_rand`'s choice as `pick` modulo the size. */
  function Pick(names: seq<string>, pick: nat): (name: string)
    requires |names| > 0
    ensures name in names
    ensures pick < |names| ==> name == names[pick]
  {
    names[pick % |names|]
  }

  /** The context array of one iteration's call, for the level that iteration drew. */
  function BatchFields(d: BatchDraw, level: string): (fields: map<string, Value>)
    ensures "status_code" in fields && fields["status_code"] == Int(RandomStatusCode(level, d.statusPick))
  {
    map[
      "user_id" := Int(d.userId),
      "action" := Str(Pick(Actions, d.actionPick)),
      "operation_type" := Str(Pick(Operations, d.operationPick)),
      "response_time" := Int(d.responseTime),
      "status_code" := Int(RandomStatusCode(level, d.statusPick)),
      "ip_address" := Str(RandomIp(d.ip.0, d.ip.1, d.ip.2, d.ip.3)),
      "session_id" := Str(d.sessionId),
      "timestamp" := Str(d.timestamp)]
  }

  /** The log call one iteration makes. */
  function BatchCall(d: BatchDraw): (call: Call)
    ensures call.level == WeightedLevel(d.levelDraw) && call.level in KnownLevels
    ensures call.message == Ucfirst(Pick(Actions, d.actionPick)) + " operation"
    ensures "status_code" in call.fields && call.fields["status_code"].Int?
      && call.fields["status_code"].i in StatusCodes(call.level)
  {
    var level := WeightedLevel(d.levelDraw);
    Call(level, Ucfirst(Pick(Actions, d.actionPick)) + " operation", BatchFields(d, level))
  }

  function BatchCalls(draws: seq<BatchDraw>): (calls: seq<Call>)
    ensures |calls| == |draws|
  {
    if draws == [] then [] else BatchCalls(draws[..|draws| - 1]) + [BatchCall(draws[|draws| - 1])]
  }

  /** The batch's `i`-th call is the one its `i`-th draw makes. */
  lemma {:induction false} BatchCallAt(draws: seq<BatchDraw>, i: nat)
    requires i < |draws|
    ensures BatchCalls(draws)[i] == BatchCall(draws[i])
    decreases |draws|
  {
    if i < |draws| - 1 {
      var prefix := draws[..|draws| - 1];
      BatchCallAt(prefix, i);
      assert prefix[i] == draws[i];
    }
  }

  /** `min($count, 100)` with the default of 10 for a missing input. */
  function ClampedCount(count: Option<int>): (c: int)
    ensures c <= 100
    ensures count.None? ==> c == 10
    ensures count.Some? ==> c == if count.value < 100 then count.value else 100
  {
    var n := count.GetOr(10);
    if n < 100 then n else 100
  }

  /** How many times the loop runs: the clamped count, or none when that is not positive. */
  function BatchSize(count: Option<int>): (n: nat)
    ensures n <= 100
    ensures n == if ClampedCount(count) <= 0 then 0 else ClampedCount(count)
  {
    if ClampedCount(count) <= 0 then 0 else ClampedCount(count)
  }

  /** Each batch event's status code is drawn from the list of that same event's level. */
  lemma BatchStatusMatchesLevel(draws: seq<BatchDraw>, i: int)
    requires 0 <= i < |draws|
    ensures var call := BatchCalls(draws)[i];
      "status_code" in call.fields && call.fields["status_code"].Int?
      && call.fields["status_code"].i in StatusCodes(call.level)
      && call.level in KnownLevels
  {
    var d := draws[i];
    var call := BatchCall(d);
    BatchCallAt(draws, i);
    assert call.level == WeightedLevel(d.levelDraw);
    assert call.fields["status_code"] == Int(RandomStatusCode(call.level, d.statusPick));
  }

  /** `batchLogs`: `draws` holds the random values of each iteration, `now` the response's
      timestamp. */
  method BatchLogs(log: Log, count: Option<int>, draws: seq<BatchDraw>, now: string) returns (response: map<string, Value>)
    requires BatchSize(count) <= |draws|
    modifies log
    ensures log.shared == old(log.shared)
    ensures log.events == old(log.events) + Stamp(BatchCalls(draws[..BatchSize(count)]), log.shared)
    ensures response == map[
      "success" := Bool(true),
      "message" := Str("Batch logs generated successfully"),
      "logs_count" := Int(ClampedCount(count)),
      "timestamp" := Str(now)]
  {
    var n := count.GetOr(10);
    n := if n < 100 then n else 100;
    var i := 0;
    while i < n
      invariant 0 <= i && (i <= n || i == 0) && i <= BatchSize(count)
      invariant log.shared == old(log.shared)
      invariant log.events == old(log.events) + Stamp(BatchCalls(draws[..i]), log.shared)
    {
      var d := draws[i];
      var level := RandomLogLevel(d.levelDraw);
      var call := Call(level, Ucfirst(Pick(Actions, d.actionPick)) + " operation", BatchFields(d, level));
      assert call == BatchCall(d);
      BatchPrefixStep(draws, i);
      StampExtend(old(log.events), BatchCalls(draws[..i]), call, log.shared);
      log.Write(call);
      i := i + 1;
    }
    assert i == BatchSize(count);
    response := map[
      "success" := Bool(true),
      "message" := Str("Batch logs generated successfully"),
      "logs_count" := Int(n),
      "timestamp" := Str(now)];
  }

  lemma BatchPrefixStep(draws: seq<BatchDraw>, i: nat)
    requires i < |draws|
    ensures BatchCalls(draws[..i + 1]) == BatchCalls(draws[..i]) + [BatchCall(draws[i])]
  {
    assert draws[..i + 1][..i] == draws[..i];
  }

  /** A batch writes exactly `BatchSize(count)` events: `min(count, 100)`, or none. */
  lemma BatchEventCount(count: Option<int>, draws: seq<BatchDraw>, shared: map<string, Value>)
    requires BatchSize(count) <= |draws|
    ensures |Stamp(BatchCalls(draws[..BatchSize(count)]), shared)| == BatchSize(count)
    ensures count.Some? && 0 < count.value <= 100 ==> BatchSize(count) == count.value
    ensures count.Some? && count.value > 100 ==> BatchSize(count) == 100
  {
  }

  // ---------------------------------------------------------------- generateLogs

  /** What `generateLogs` reads from the request, and the values it draws; the clock is read
      once for each `now()` call: the action event, the failed attempt and the response. */
  datatype GenerateInput = GenerateInput(
    userId: Option<Value>,
    action: Option<Value>,
    ip: Value,
    userAgent: Value,
    path: string,
    httpMethod: string,
    query: map<string, Value>,
    defaultUserId: int,
    branchDraw: int,
    queryTime: int,
    responseTime: int,
    memoryUsage: string,
    logsWritten: int,
    loggedAt: string,
    attemptedAt: string,
    respondedAt: string)

  function GenerateUserId(g: GenerateInput): Value { g.userId.GetOr(Int(g.defaultUserId)) }
  function GenerateAction(g: GenerateInput): Value { g.action.GetOr(Str("test_action")) }

  function ActionCall(g: GenerateInput): Call {
    Call("info", "User action completed", map[
      "user_id" := GenerateUserId(g),
      "action" := GenerateAction(g),
      "ip_address" := g.ip,
      "user_agent" := g.userAgent,
      "timestamp" := Str(g.loggedAt),
      "status" := Str("success")])
  }

  function DebugCall(g: GenerateInput): Call {
    Call("debug", "Processing user request", map[
      "user_id" := GenerateUserId(g),
      "request_path" := Str(g.path),
      "request_method" := Str(g.httpMethod),
      "query_params" := Arr(g.query)])
  }

  function DatabaseErrorCall(g: GenerateInput): Call {
    Call("error", "Database query failed", map[
      "user_id" := GenerateUserId(g),
      "error_code" := Str("DB_CONNECTION_ERROR"),
      "query" := Str("SELECT * FROM users WHERE id = ?"),
      "attempted_at" := Str(g.attemptedAt),
      "retry_count" := Int(3)])
  }

  function SlowQueryCall(g: GenerateInput): Call {
    Call("warning", "Slow database query detected", map[
      "user_id" := GenerateUserId(g),
      "query_time" := Str(IntToString(g.queryTime) + "ms"),
      "query" := Str("SELECT * FROM orders WHERE user_id = ?"),
      "threshold" := Str("1000ms")])
  }

  function MetricsCall(g: GenerateInput): Call {
    Call("info", "API response metrics", map[
      "endpoint" := Str(g.path),
      "response_time" := Str(IntToString(g.responseTime) + "ms"),
      "status_code" := Int(200),
      "user_id" := GenerateUserId(g),
      "memory_usage" := Str(g.memoryUsage + "MB")])
  }

  /** The calls `generateLogs` makes, in order. */
  function GenerateCalls(g: GenerateInput): (calls: seq<Call>)
    ensures 3 <= |calls| <= 4
    ensures calls[0] == ActionCall(g) && calls[1] == DebugCall(g) && calls[|calls| - 1] == MetricsCall(g)
    ensures |calls| == 4 <==> g.branchDraw <= 4
  {
    [ActionCall(g), DebugCall(g)]
      + (if g.branchDraw <= 2 then [DatabaseErrorCall(g)]
         else if g.branchDraw <= 4 then [SlowQueryCall(g)]
         else [])
      + [MetricsCall(g)]
  }

  function Levels(calls: seq<Call>): (ls: seq<string>)
    ensures |ls| == |calls| && forall i :: 0 <= i < |calls| ==> ls[i] == calls[i].level
  {
    if calls == [] then [] else [calls[0].level] + Levels(calls[1..])
  }

  /** info, debug, then an error for a draw of at most 2, a warning for 3-4, nothing otherwise,
      then the info metrics: three or four events. */
  lemma GenerateLevels(g: GenerateInput)
    ensures 3 <= |GenerateCalls(g)| <= 4
    ensures g.branchDraw <= 2 ==> Levels(GenerateCalls(g)) == ["info", "debug", "error", "info"]
    ensures 2 < g.branchDraw <= 4 ==> Levels(GenerateCalls(g)) == ["info", "debug", "warning", "info"]
    ensures 4 < g.branchDraw ==> Levels(GenerateCalls(g)) == ["info", "debug", "info"]
  {
  }

  /** The JSON body of `generateLogs`: it reports the same user and action as the first event
      it logged. `logs_written` is its own draw, not the number of events written. */
  function GenerateResponse(g: GenerateInput): (response: map<string, Value>)
    ensures response.Keys == {"success", "message", "user_id", "action", "logs_written", "timestamp"}
    ensures response["success"] == Bool(true) && response["message"] == Str("Logs generated successfully")
    ensures response["user_id"] == ActionCall(g).fields["user_id"]
    ensures response["action"] == ActionCall(g).fields["action"]
    ensures response["logs_written"] == Int(g.logsWritten) && response["timestamp"] == Str(g.respondedAt)
  {
    map[
      "success" := Bool(true),
      "message" := Str("Logs generated successfully"),
      "user_id" := GenerateUserId(g),
      "action" := GenerateAction(g),
      "logs_written" := Int(g.logsWritten),
      "timestamp" := Str(g.respondedAt)]
  }

  /** `generateLogs`. */
  method GenerateLogs(log: Log, g: GenerateInput) returns (response: map<string, Value>)
    modifies log
    ensures log.shared == old(log.shared)
    ensures log.events == old(log.events) + Stamp(GenerateCalls(g), log.shared)
    ensures response == GenerateResponse(g)
  {
    ghost var e0, shared := log.events, log.shared;
    log.Write(ActionCall(g));
    log.Write(DebugCall(g));
    StampExtend(e0, [ActionCall(g)], DebugCall(g), shared);
    ghost var calls := [ActionCall(g), DebugCall(g)];
    if g.branchDraw <= 2 {
      log.Write(DatabaseErrorCall(g));
      StampExtend(e0, calls, DatabaseErrorCall(g), shared);
      calls := [ActionCall(g), DebugCall(g), DatabaseErrorCall(g)];
    } else if g.branchDraw <= 4 {
      log.Write(SlowQueryCall(g));
      StampExtend(e0, calls, SlowQueryCall(g), shared);
      calls := [ActionCall(g), DebugCall(g), SlowQueryCall(g)];
    }
    log.Write(MetricsCall(g));
    StampExtend(e0, calls, MetricsCall(g), shared);
    GenerateCallsCases(g);
    response := GenerateResponse(g);
  }

  /** The three shapes of `generateLogs`' call list. */
  lemma GenerateCallsCases(g: GenerateInput)
    ensures g.branchDraw <= 2 ==>
      GenerateCalls(g) == [ActionCall(g), DebugCall(g), DatabaseErrorCall(g)] + [MetricsCall(g)]
    ensures 2 < g.branchDraw <= 4 ==>
      GenerateCalls(g) == [ActionCall(g), DebugCall(g), SlowQueryCall(g)] + [MetricsCall(g)]
    ensures 4 < g.branchDraw ==> GenerateCalls(g) == [ActionCall(g), DebugCall(g)] + [MetricsCall(g)]
  {
  }

  // ---------------------------------------------------------------- errorScenarios

  function DatabaseTimeoutCall(backtrace: Value): Call {
    Call("error", "Database connection timeout", map[
      "error_type" := Str("DATABASE_ERROR"),
      "host" := Str("db.example.com"),
      "port" := Int(3306),
      "timeout" := Str("30s"),
      "stack_trace" := backtrace])
  }

  const ApiFailureCall: Call :=
    Call("error", "External API request failed", map[
      "error_type" := Str("API_ERROR"),
      "api_url" := Str("https://api.example.com/v1/users"),
      "status_code" := Int(503),
      "response_time" := Str("15000ms"),
      "error_message" := Str("Service Unavailable")])

  const ValidationFailureCall: Call :=
    Call("warning", "Validation failed for user input", map[
      "error_type" := Str("VALIDATION_ERROR"),
      "fields" := List([Str("email"), Str("phone")]),
      "errors" := Arr(map[
        "email" := Str("Invalid email format"),
        "phone" := Str("Phone number too short")])])

  const Scenarios: set<string> := {"database", "api", "validation"}

  /** The calls one scenario makes; any other value runs the three in order. `backtrace` is
      what `debug_backtrace` returns when this call logs the database scenario itself, and
      `nestedBacktrace` what it returns inside the nested `errorScenarios` call of the default
      branch, one frame deeper. */
  function ScenarioCalls(scenario: string, backtrace: Value, nestedBacktrace: Value): (calls: seq<Call>)
    ensures |calls| == 1 <==> scenario in Scenarios
    ensures |calls| == 3 <==> scenario !in Scenarios
    ensures scenario == "database" ==> calls[0] == DatabaseTimeoutCall(backtrace)
    ensures scenario !in Scenarios ==> calls[0] == DatabaseTimeoutCall(nestedBacktrace)
  {
    match scenario
    case "database" => [DatabaseTimeoutCall(backtrace)]
    case "api" => [ApiFailureCall]
    case "validation" => [ValidationFailureCall]
    case _ => [DatabaseTimeoutCall(nestedBacktrace), ApiFailureCall, ValidationFailureCall]
  }

  /** Any scenario other than the three named ones is exactly the three named ones run in
      order as nested calls, whose database call sees the nested call's backtrace. */
  lemma {:induction false} OtherScenarioIsAllThree(scenario: string, backtrace: Value, nestedBacktrace: Value, deeper: Value)
    requires scenario !in Scenarios
    ensures ScenarioCalls(scenario, backtrace, nestedBacktrace)
      == ScenarioCalls("database", nestedBacktrace, deeper) + ScenarioCalls("api", nestedBacktrace, deeper)
        + ScenarioCalls("validation", nestedBacktrace, deeper)
    ensures Levels(ScenarioCalls(scenario, backtrace, nestedBacktrace)) == ["error", "error", "warning"]
  {
  }

  lemma NamedScenarioCalls(backtrace: Value, nestedBacktrace: Value)
    ensures ScenarioCalls("database", backtrace, nestedBacktrace) == [DatabaseTimeoutCall(backtrace)]
    ensures ScenarioCalls("api", backtrace, nestedBacktrace) == [ApiFailureCall]
    ensures ScenarioCalls("validation", backtrace, nestedBacktrace) == [ValidationFailureCall]
  {
  }

  /** The JSON body of `errorScenarios`: it echoes the scenario that was run. */
  function ScenarioResponse(scenario: string): (response: map<string, Value>)
    ensures response.Keys == {"success", "message", "scenario"}
    ensures response["success"] == Bool(true) && response["message"] == Str("Error scenarios logged")
    ensures response["scenario"] == Str(scenario)
  {
    map["success" := Bool(true), "message" := Str("Error scenarios logged"), "scenario" := Str(scenario)]
  }

  /** `errorScenarios`; a missing `scenario` input means `'all'`. `backtrace` is what
      `debug_backtrace` returns in this call, `nestedBacktrace` what it returns in a nested
      call this one makes. */
  method ErrorScenarios(log: Log, scenarioInput: Option<string>, backtrace: Value, nestedBacktrace: Value)
    returns (response: map<string, Value>)
    modifies log
    decreases if scenarioInput.GetOr("all") in Scenarios then 0 else 1
    ensures log.shared == old(log.shared)
    ensures log.events == old(log.events) + Stamp(ScenarioCalls(scenarioInput.GetOr("all"), backtrace, nestedBacktrace), log.shared)
    ensures response == ScenarioResponse(scenarioInput.GetOr("all"))
  {
    var scenario := scenarioInput.GetOr("all");
    match scenario {
      case "database" =>
        log.Write(DatabaseTimeoutCall(backtrace));
      case "api" =>
        log.Write(ApiFailureCall);
      case "validation" =>
        log.Write(ValidationFailureCall);
      case _ =>
        ghost var e0, shared := log.events, log.shared;
        ghost var database := DatabaseTimeoutCall(nestedBacktrace);
        NamedScenarioCalls(nestedBacktrace, nestedBacktrace);
        OtherScenarioIsAllThree(scenario, backtrace, nestedBacktrace, nestedBacktrace);
        var ignored := ErrorScenarios(log, Some("database"), nestedBacktrace, nestedBacktrace);
        assert log.events == e0 + Stamp([database], shared);
        ignored := ErrorScenarios(log, Some("api"), nestedBacktrace, nestedBacktrace);
        StampExtend(e0, [database], ApiFailureCall, shared);
        ignored := ErrorScenarios(log, Some("validation"), nestedBacktrace, nestedBacktrace);
        StampExtend(e0, [database, ApiFailureCall], ValidationFailureCall, shared);
    }
    response := ScenarioResponse(scenario);
  }
}
