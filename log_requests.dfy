/** The per-request logging middleware (ToDo/app/Http/Middleware/LogRequests.php): one request
    id per request, shared as log context together with the request's metadata, an
    "Incoming request" and a "Request completed" event around the downstream handler, and the id
    echoed back in the `X-Request-Id` response header. */
module LogRequests {
  import opened Wrappers
  import opened Php
  import opened LogFacade
  import opened Ascii

  datatype User = User(id: int, email: string)

  /** What the middleware reads from the request; `route` is the matched route's name, if any. */
  datatype Request = Request(
    user: Option<User>,
    ip: Option<string>,
    userAgent: Option<string>,
    sessionId: string,
    httpMethod: string,
    fullUrl: string,
    route: Option<string>,
    path: string,
    query: map<string, Value>,
    hasFile: bool)

  function OptionalString(o: Option<string>): Value {
    if o.Some? then Str(o.value) else Null
  }

  const SharedKeys: set<string> :=
    {"request_id", "user_id", "user_email", "ip_address", "user_agent", "session_id", "method", "url", "route"}

  /** The context shared for the request's lifetime. */
  function RequestContext(req: Request, requestId: string): (ctx: map<string, Value>)
    ensures ctx.Keys == SharedKeys
    ensures ctx["request_id"] == Str(requestId)
    ensures req.user.None? ==> ctx["user_id"] == Null && ctx["user_email"] == Null
    ensures req.user.Some? ==> ctx["user_id"] == Int(req.user.value.id) && ctx["user_email"] == Str(req.user.value.email)
    ensures ctx["ip_address"] == OptionalString(req.ip) && ctx["user_agent"] == OptionalString(req.userAgent)
    ensures ctx["session_id"] == Str(req.sessionId) && ctx["method"] == Str(req.httpMethod)
    ensures ctx["url"] == Str(req.fullUrl) && ctx["route"] == OptionalString(req.route)
  {
    map[
      "request_id" := Str(requestId),
      "user_id" := if req.user.Some? then Int(req.user.value.id) else Null,
      "user_email" := if req.user.Some? then Str(req.user.value.email) else Null,
      "ip_address" := OptionalString(req.ip),
      "user_agent" := OptionalString(req.userAgent),
      "session_id" := Str(req.sessionId),
      "method" := Str(req.httpMethod),
      "url" := Str(req.fullUrl),
      "route" := OptionalString(req.route)]
  }

  function IncomingCall(req: Request): (c: Call)
    ensures c.level == "info" && c.message == "Incoming request"
    ensures c.fields.Keys == {"path", "query_params", "has_file"}
    ensures c.fields["path"] == Str(req.path) && c.fields["query_params"] == Arr(req.query)
    ensures c.fields["has_file"] == Bool(req.hasFile)
  {
    Call("info", "Incoming request", map[
      "path" := Str(req.path),
      "query_params" := Arr(req.query),
      "has_file" := Bool(req.hasFile)])
  }

  /** `elapsed` is the rounded response time in milliseconds, a clock reading. */
  function CompletedCall(status: int, elapsed: Value): (c: Call)
    ensures c.level == "info" && c.message == "Request completed"
    ensures c.fields.Keys == {"status_code", "response_time_ms"}
    ensures c.fields["status_code"] == Int(status) && c.fields["response_time_ms"] == elapsed
  {
    Call("info", "Request completed", map[
      "status_code" := Int(status),
      "response_time_ms" := elapsed])
  }

  /** The events one request writes: the middleware's two events around the downstream
      handler's own, all under the context shared for the request. */
  function RequestEvents(shared: map<string, Value>, req: Request, downstream: seq<Call>, status: int, elapsed: Value): (es: seq<Event>)
    ensures |es| == |downstream| + 2
    ensures es[0].message == "Incoming request" && es[|es| - 1].message == "Request completed"
    ensures es[0].level == "info" && es[|es| - 1].level == "info"
    ensures es[1..|es| - 1] == Stamp(downstream, shared)
    ensures "status_code" in es[|es| - 1].context && es[|es| - 1].context["status_code"] == Int(status)
  {
    var incoming, completed := [IncomingCall(req)], [CompletedCall(status, elapsed)];
    StampAppend(incoming, downstream, shared);
    StampAppend(incoming + downstream, completed, shared);
    var s1, s2, s3 := Stamp(incoming, shared), Stamp(downstream, shared), Stamp(completed, shared);
    assert (s1 + s2 + s3)[1..|s1 + s2 + s3| - 1] == s2;
    Stamp(incoming + downstream + completed, shared)
  }

  /** Every event of the request carries the request id, unless a call overrides that key. */
  lemma {:induction false} EventsCarryRequestId(
    prior: map<string, Value>, req: Request, requestId: string, downstream: seq<Call>, status: int, elapsed: Value, i: int)
    requires forall c :: c in downstream ==> "request_id" !in c.fields
    requires 0 <= i < |downstream| + 2
    ensures var es := RequestEvents(prior + RequestContext(req, requestId), req, downstream, status, elapsed);
      "request_id" in es[i].context && es[i].context["request_id"] == Str(requestId)
  {
    var shared := prior + RequestContext(req, requestId);
    var calls := [IncomingCall(req)] + downstream + [CompletedCall(status, elapsed)];
    assert "request_id" !in calls[i].fields by {
      if 0 < i < |downstream| + 1 {
        assert calls[i] == downstream[i - 1];
      }
    }
    SharedKeyReachesEvent(calls, shared, i, "request_id");
  }

  /** A Symfony response: status and header bag (names stored under their `HeaderKey`, values as lists). */
  class Response {
    var status: int
    var headers: map<string, seq<string>>

    constructor (status: int, headers: map<string, seq<string>>)
      ensures this.status == status && this.headers == headers
    {
      this.status := status;
      this.headers := headers;
    }

    /** `$response->headers->set($name, $value)`: replaces every value under the name. */
    method SetHeader(name: string, value: string)
      modifies this
      ensures headers == old(headers)[HeaderKey(name) := [value]]
      ensures status == old(status)
    {
      headers := headers[HeaderKey(name) := [value]];
    }
  }

  /** The key under which Symfony's `HeaderBag` stores a header name: ASCII upper case to
      lower case and `_` to `-`, character by character. */
  function HeaderKey(s: string): (k: string)
    ensures |k| == |s|
    ensures forall i :: 0 <= i < |s| ==> k[i] == if s[i] == '_' then '-' else LowerChar(s[i])
    ensures '_' !in k
  {
    seq(|s|, i requires 0 <= i < |s| => if s[i] == '_' then '-' else LowerChar(s[i]))
  }

  /** Normalising a header name twice gives the same key as once. */
  lemma HeaderKeyIdempotent(s: string)
    ensures HeaderKey(HeaderKey(s)) == HeaderKey(s)
  {
  }

  /** `handle`: `requestId` is the fresh `Str::uuid()`, `downstream` the log calls the rest
      of the pipeline makes when `$next($request)` runs, `next` the response it returns, and
      `elapsed` the measured response time. */
  method Handle(log: Log, req: Request, requestId: string, downstream: seq<Call>, next: Response, elapsed: Value)
    returns (response: Response)
    modifies log, next
    ensures log.shared == old(log.shared) + RequestContext(req, requestId)
    ensures log.events == old(log.events) + RequestEvents(log.shared, req, downstream, next.status, elapsed)
    ensures response == next && response.status == old(next.status)
    ensures response.headers == old(next.headers)["x-request-id" := [requestId]]
    ensures response.headers["x-request-id"] == [requestId] && log.shared["request_id"] == Str(requestId)
  {
    ghost var before := log.events;
    log.ShareContext(RequestContext(req, requestId));
    log.Write(IncomingCall(req));
    log.WriteAll(downstream);
    response := next;
    log.Write(CompletedCall(response.status, elapsed));
    response.SetHeader("X-Request-Id", requestId);
    RequestIdHeaderName();
    ghost var incoming, completed := [IncomingCall(req)], [CompletedCall(next.status, elapsed)];
    ghost var shared := log.shared;
    assert log.events == before + Stamp(incoming, shared) + Stamp(downstream, shared) + Stamp(completed, shared);
    StampAppend(incoming, downstream, shared);
    StampAppend(incoming + downstream, completed, shared);
    ghost var all := Stamp(incoming + downstream + completed, shared);
    ghost var s1, s2, s3 := Stamp(incoming, shared), Stamp(downstream, shared), Stamp(completed, shared);
    assert all == s1 + s2 + s3;
    assert RequestEvents(shared, req, downstream, next.status, elapsed) == all;
    ConcatAssoc(before, s1, s2, s3);
  }

  lemma RequestIdHeaderName()
    ensures HeaderKey("X-Request-Id") == "x-request-id"
  {
  }

  lemma ConcatAssoc<T>(a: seq<T>, b: seq<T>, c: seq<T>, d: seq<T>)
    ensures a + b + c + d == a + (b + c + d)
  {
  }
}
