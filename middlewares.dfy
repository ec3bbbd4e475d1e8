/** app/middlewares/__init__.py: the request-id middleware, the structured-logging
    middleware's decisions, the order Starlette runs the registered middlewares in, the
    three exception handlers and the CORS settings read at registration. */
module Middlewares {
  import opened Wrappers
  import opened Strings
  import opened Http
  import opened Errors
  import Response
  import opened LoggerConfig
  import opened Config

  // ---------------------------------------------------------------- requests and headers

  /** A header list as the server delivers it: name and value, in arrival order. */
  type HeaderList = seq<(string, string)>

  /** The parts of a request the middlewares read; `client` is the peer host, if known. */
  datatype Request = Request(verb: string, path: string, headers: HeaderList, client: Option<string>)

  /** A response on its way out; header names are kept lower-case, as Starlette stores them. */
  datatype Reply = Reply(status: int, headers: map<string, string>)

  /** `request.headers.get(name)`: the value of the first header whose name matches,
      ignoring letter case. */
  function HeaderGet(hs: HeaderList, name: string): (r: Option<string>)
    ensures r.None? <==> forall i :: 0 <= i < |hs| ==> Lower(hs[i].0) != Lower(name)
    ensures r.Some? ==> exists i :: 0 <= i < |hs| && Lower(hs[i].0) == Lower(name) && hs[i].1 == r.value
                                 && forall j :: 0 <= j < i ==> Lower(hs[j].0) != Lower(name)
  {
    if hs == [] then None
    else if Lower(hs[0].0) == Lower(name) then Some(hs[0].1)
    else
      var r := HeaderGet(hs[1..], name);
      assert forall i :: 1 <= i < |hs| ==> hs[i] == hs[1..][i - 1];
      assert r.Some? ==> exists i :: 1 <= i < |hs| && Lower(hs[i].0) == Lower(name) && hs[i].1 == r.value
                                  && forall j :: 0 <= j < i ==> Lower(hs[j].0) != Lower(name) by {
        if r.Some? {
          var k :| 0 <= k < |hs[1..]| && Lower(hs[1..][k].0) == Lower(name) && hs[1..][k].1 == r.value
                   && forall j :: 0 <= j < k ==> Lower(hs[1..][j].0) != Lower(name);
          assert forall j :: 0 <= j < k + 1 ==> Lower(hs[j].0) != Lower(name) by {
            forall j | 0 <= j < k + 1 ensures Lower(hs[j].0) != Lower(name) {
              if j > 0 { assert hs[j] == hs[1..][j - 1]; }
            }
          }
        }
      }
      r
  }

  /** The header names the logged header map leaves out, compared lower-cased. */
  const Sensitive: set<string> := {"authorization", "cookie", "x-api-key"}

  /** The header map of the start record: every header whose lower-cased name is not
      sensitive, keyed by its own name; a name that occurs twice keeps its last value. */
  function SanitizeHeaders(hs: HeaderList): (m: map<string, string>)
    ensures forall k :: k in m ==> Lower(k) !in Sensitive
  {
    if hs == [] then map[]
    else
      var (k, v) := hs[|hs| - 1];
      if Lower(k) in Sensitive then SanitizeHeaders(hs[..|hs| - 1]) else SanitizeHeaders(hs[..|hs| - 1])[k := v]
  }

  /** A header is logged exactly when its lower-cased name is not sensitive, every logged
      name comes from the request, and a logged name carries its last value. */
  lemma {:induction false} SanitizeHeadersKeeps(hs: HeaderList)
    ensures forall i :: 0 <= i < |hs| ==> (hs[i].0 in SanitizeHeaders(hs) <==> Lower(hs[i].0) !in Sensitive)
    ensures forall k :: k in SanitizeHeaders(hs) ==> exists i :: 0 <= i < |hs| && hs[i].0 == k
    ensures forall i :: 0 <= i < |hs| && Lower(hs[i].0) !in Sensitive && (forall j :: i < j < |hs| ==> hs[j].0 != hs[i].0)
              ==> SanitizeHeaders(hs)[hs[i].0] == hs[i].1
  {
    if hs != [] {
      var n := |hs| - 1;
      var init := hs[..n];
      SanitizeHeadersKeeps(init);
      assert forall i :: 0 <= i < n ==> init[i] == hs[i];
      var m := SanitizeHeaders(hs);
      forall i | 0 <= i < |hs| ensures (hs[i].0 in m <==> Lower(hs[i].0) !in Sensitive) {
        if i < n { assert init[i] == hs[i]; }
      }
      forall k | k in m ensures exists i :: 0 <= i < |hs| && hs[i].0 == k {
        if k != hs[n].0 {
          var i :| 0 <= i < |init| && init[i].0 == k;
          assert hs[i].0 == k;
        }
      }
      forall i | 0 <= i < |hs| && Lower(hs[i].0) !in Sensitive && (forall j :: i < j < |hs| ==> hs[j].0 != hs[i].0)
        ensures m[hs[i].0] == hs[i].1
      {
        if i < n {
          assert init[i] == hs[i];
          assert forall j :: i < j < |init| ==> init[j].0 != init[i].0;
        }
      }
    }
  }

  /** `rid`: the request id for log lines, "-" when there is none. */
  function Rid(requestId: Option<string>): (r: string)
    ensures requestId.Some? && requestId.value != "" ==> r == requestId.value
    ensures requestId.None? || requestId.value == "" ==> r == "-"
    ensures r != ""
  {
    if requestId.Some? && requestId.value != "" then requestId.value else "-"
  }

  /** `request.headers.get("X-Request-ID") or str(uuid.uuid4())`; `freshId` is the new uuid. */
  function ResolveRequestId(inbound: Option<string>, freshId: string): (r: string)
    ensures inbound.Some? && inbound.value != "" ==> r == inbound.value
    ensures inbound.None? || inbound.value == "" ==> r == freshId
  {
    if inbound.Some? && inbound.value != "" then inbound.value else freshId
  }

  /** `request.client.host if request.client else "unknown"`. */
  function ClientIp(req: Request): (r: string)
    ensures req.client.Some? ==> r == req.client.value
    ensures req.client.None? ==> r == "unknown"
  {
    req.client.GetOr("unknown")
  }

  /** The severity of the completion record, chosen by status class. */
  function LevelForStatus(status: int): (l: Level)
    ensures l == Error <==> 500 <= status < 600
    ensures l == Warning <==> 400 <= status < 500
    ensures l == Info <==> !(400 <= status < 600)
  {
    if 500 <= status < 600 then Error
    else if 400 <= status < 500 then Warning
    else Info
  }

  /** The completion record is an error exactly when the status maps to E_SERVER_ERROR, and a
      warning only for statuses that map to a client error code. */
  lemma LevelAgreesWithErrorCode(status: int)
    ensures LevelForStatus(status) == Error <==> FromStatus(status) == ServerError
    ensures LevelForStatus(status) == Warning ==> FromStatus(status) in {BadRequest, AuthFailed, Forbidden, NotFound}
  {
    FromStatusFollowsStatusClass(status);
  }

  // ---------------------------------------------------------------- log records

  /** The `extra` of each record the logging middleware writes; `realIp` is the peer host,
      None when the client is unknown. */
  datatype RecordExtra =
    | SeparatorExtra(requestId: Option<string>)
    | StartExtra(requestId: Option<string>, verb: string, path: string, headers: map<string, string>,
                 realIp: Option<string>)
    | CompleteExtra(requestId: Option<string>, verb: string, path: string, statusCode: int, latencyMs: nat,
                    userAgent: Option<string>, realIp: Option<string>, responseSize: string)
    | ErrorExtra(requestId: Option<string>, verb: string, path: string, error: string, realIp: Option<string>)

  /** A record of the "HTTP" component logger; `message` already carries the `[HTTP] ` tag. */
  datatype HttpRecord = HttpRecord(level: Level, message: string, extra: RecordExtra)

  /** The 120-dash separator line. */
  function Dashes(n: nat): (r: string)
    ensures |r| == n && forall i :: 0 <= i < n ==> r[i] == '-'
  {
    seq(n, _ => '-')
  }

  /** The separator and START records written before the rest of the stack runs. */
  function StartRecords(req: Request, requestId: Option<string>): (rs: seq<HttpRecord>)
    ensures |rs| == 2 && rs[0].level == Info && rs[1].level == Info
    ensures rs[0].message == Tagged("HTTP", Dashes(120)) && rs[0].extra == SeparatorExtra(requestId)
    ensures rs[1].extra == StartExtra(requestId, req.verb, req.path, SanitizeHeaders(req.headers), req.client)
    ensures rs[1].message == Tagged("HTTP", "[\U{25B6}] START " + FormatPairs(
              [("rid", Some(Rid(requestId))), ("method", Some(req.verb)), ("path", Some(req.path)),
               ("ip", Some(ClientIp(req))), ("ua", HeaderGet(req.headers, "user-agent"))]))
  {
    var rid := Rid(requestId);
    [HttpRecord(Info, Tagged("HTTP", Dashes(120)), SeparatorExtra(requestId)),
     HttpRecord(Info, Tagged("HTTP", "[\U{25B6}] START " + FormatPairs(
       [("rid", Some(rid)), ("method", Some(req.verb)), ("path", Some(req.path)),
        ("ip", Some(ClientIp(req))), ("ua", HeaderGet(req.headers, "user-agent"))])),
       StartExtra(requestId, req.verb, req.path, SanitizeHeaders(req.headers), req.client))]
  }

  /** `response.headers.get("content-length") or "-"`. */
  function ResponseSize(reply: Reply): (r: string)
    ensures "content-length" in reply.headers && reply.headers["content-length"] != "" ==> r == reply.headers["content-length"]
    ensures "content-length" !in reply.headers || reply.headers["content-length"] == "" ==> r == "-"
  {
    if "content-length" in reply.headers && reply.headers["content-length"] != "" then reply.headers["content-length"] else "-"
  }

  /** The DONE record; `latencyMs` is the rounded clock difference. */
  function DoneRecord(req: Request, requestId: Option<string>, reply: Reply, latencyMs: nat): (r: HttpRecord)
    ensures r.level == LevelForStatus(reply.status)
    ensures r.extra == CompleteExtra(requestId, req.verb, req.path, reply.status, latencyMs,
                                     HeaderGet(req.headers, "user-agent"), req.client, ResponseSize(reply))
  {
    HttpRecord(LevelForStatus(reply.status), Tagged("HTTP", "[\U{2714}] DONE " + FormatPairs(
      [("rid", Some(Rid(requestId))), ("method", Some(req.verb)), ("path", Some(req.path)),
       ("status", Some(IntToString(reply.status))), ("latency_ms", Some(IntToString(latencyMs))),
       ("size", Some(ResponseSize(reply))), ("ip", Some(ClientIp(req)))])),
      CompleteExtra(requestId, req.verb, req.path, reply.status, latencyMs,
                    HeaderGet(req.headers, "user-agent"), req.client, ResponseSize(reply)))
  }

  /** The ERROR record for an exception `err` raised further in. */
  function ErrorRecord(req: Request, requestId: Option<string>, err: string, latencyMs: nat): (r: HttpRecord)
    ensures r.level == Error && r.extra == ErrorExtra(requestId, req.verb, req.path, err, req.client)
  {
    HttpRecord(Error, Tagged("HTTP", "[\U{2716}] ERROR " + FormatPairs(
      [("rid", Some(Rid(requestId))), ("method", Some(req.verb)), ("path", Some(req.path)),
       ("err", Some(err)), ("latency_ms", Some(IntToString(latencyMs))), ("ip", Some(ClientIp(req)))])),
      ErrorExtra(requestId, req.verb, req.path, err, req.client))
  }

  // ---------------------------------------------------------------- the middleware stack

  /** The middlewares `middlewares(app)` registers. */
  datatype Layer = Cors | GZip | SecurityHeaders | RequestIdLayer | RateLimit | StructuredLogging

  /** The registration order of `middlewares(app)`. */
  const Registered: seq<Layer> := [Cors, GZip, SecurityHeaders, RequestIdLayer, RateLimit, StructuredLogging]

  /** Starlette's `add_middleware` inserts each new middleware at the front of the list, and
      the front of the list runs outermost. */
  function Stack(registered: seq<Layer>): (s: seq<Layer>)
    ensures |s| == |registered|
    ensures forall i :: 0 <= i < |s| ==> s[i] == registered[|registered| - 1 - i]
  {
    if registered == [] then [] else [registered[|registered| - 1]] + Stack(registered[..|registered| - 1])
  }

  /** What the rest of the stack does with a request: a reply or the text of an exception. */
  datatype Outcome = Responded(reply: Reply) | Raised(error: string)

  /** The inputs from outside: what the innermost application does, the uuid a request-id
      middleware would draw, and the latency the logging middleware measures. */
  datatype Downstream = Downstream(inner: Outcome, freshId: string, latencyMs: nat)

  /** One request through a stack: its outcome, the records written in order, and the
      `request.state.request_id` seen by the application in the middle. */
  datatype Trace = Trace(outcome: Outcome, records: seq<HttpRecord>, stateRequestId: Option<string>)

  /** The request-id middleware's step on the way out: a reply gets the id header; an
      exception passes through untouched. */
  function EchoRequestId(o: Outcome, id: string): (r: Outcome)
    ensures o.Raised? ==> r == o
    ensures o.Responded? ==> r.Responded? && r.reply.status == o.reply.status
                             && r.reply.headers == o.reply.headers["x-request-id" := id]
  {
    match o
    case Responded(reply) => Responded(reply.(headers := reply.headers["x-request-id" := id]))
    case Raised(_) => o
  }

  /** `request.state`: the attribute bag one request carries through every layer and handler. */
  class RequestState {
    var requestId: Option<string>

    /** A new request's state: `request_id` not yet set. */
    constructor ()
      ensures requestId == None
    {
      requestId := None;
    }
  }

  /** The `Response` object `call_next` hands back, changed in place on its way out. */
  class ResponseObject {
    var status: int
    var headers: map<string, string>

    constructor (reply: Reply)
      ensures AsReply() == reply
    {
      status := reply.status;
      headers := reply.headers;
    }

    /** The response as a value. */
    function AsReply(): (r: Reply)
      reads this
      ensures r.status == status && r.headers == headers
    {
      Reply(status, headers)
    }
  }

  /** `_request_id_middleware` on the objects it changes: it writes the resolved id into
      `request.state` before `call_next`, so every layer and handler inside reads it there,
      then sets the id header on the response object `call_next` returned (null when
      `call_next` raised, which the middleware lets pass). */
  method RequestIdMiddleware(req: Request, state: RequestState, freshId: string, response: ResponseObject?)
    returns (id: string)
    modifies state, response
    ensures id == ResolveRequestId(HeaderGet(req.headers, "x-request-id"), freshId)
    ensures state.requestId == Some(id)
    ensures response != null ==> Responded(response.AsReply()) == EchoRequestId(Responded(old(response.AsReply())), id)
  {
    var inbound := HeaderGet(req.headers, "x-request-id");
    id := if inbound.Some? && inbound.value != "" then inbound.value else freshId;
    state.requestId := Some(id);
    if response != null {
      response.headers := response.headers["x-request-id" := id];
    }
  }

  /** The record the logging middleware writes once the rest of the stack is done: DONE
      for a reply, ERROR for an exception. */
  function ClosingRecord(req: Request, stateId: Option<string>, o: Outcome, latencyMs: nat): (r: HttpRecord)
    ensures o.Responded? ==> r == DoneRecord(req, stateId, o.reply, latencyMs)
    ensures o.Raised? ==> r == ErrorRecord(req, stateId, o.error, latencyMs)
  {
    match o
    case Responded(reply) => DoneRecord(req, stateId, reply, latencyMs)
    case Raised(err) => ErrorRecord(req, stateId, err, latencyMs)
  }

  /** The `request.state.request_id` a layer hands to the layers inside it: the
      request-id middleware sets the resolved id, every other layer leaves it. */
  function EntryState(l: Layer, req: Request, stateId: Option<string>, d: Downstream): (r: Option<string>)
    ensures l == RequestIdLayer ==> r == Some(ResolveRequestId(HeaderGet(req.headers, "x-request-id"), d.freshId))
    ensures l != RequestIdLayer ==> r == stateId
  {
    if l == RequestIdLayer then Some(ResolveRequestId(HeaderGet(req.headers, "x-request-id"), d.freshId))
    else stateId
  }

  /** What a layer makes of the trace of the layers inside it. The request-id middleware
      echoes its id. The logging middleware writes the separator and START records (seeing
      `stateId`, the id as it was on entry) before the inner records, then DONE or ERROR. The
      other layers pass the trace through. */
  function Exit(l: Layer, req: Request, stateId: Option<string>, d: Downstream, inner: Trace): (t: Trace)
    ensures l != RequestIdLayer && l != StructuredLogging ==> t == inner
    ensures l == RequestIdLayer ==> t == inner.(outcome := EchoRequestId(inner.outcome, EntryState(l, req, stateId, d).value))
    ensures l == StructuredLogging ==> t.outcome == inner.outcome && t.stateRequestId == inner.stateRequestId
  {
    match l
    case RequestIdLayer =>
      inner.(outcome := EchoRequestId(inner.outcome, EntryState(l, req, stateId, d).value))
    case StructuredLogging =>
      Trace(inner.outcome, StartRecords(req, stateId) + inner.records + [ClosingRecord(req, stateId, inner.outcome, d.latencyMs)],
            inner.stateRequestId)
    case _ => inner
  }

  /** Running a request through `stack` (outermost first) with `request.state.request_id`
      holding `stateId` on entry. CORS, GZip, security headers and the rate limiter pass
      requests and replies through. */
  function Run(stack: seq<Layer>, req: Request, stateId: Option<string>, d: Downstream): (t: Trace)
    decreases |stack|
  {
    if stack == [] then Trace(d.inner, [], stateId)
    else Exit(stack[0], req, stateId, d, Run(stack[1..], req, EntryState(stack[0], req, stateId, d), d))
  }

  /** The innermost part of a stack holding no logging middleware, as seen from outside. */
  lemma {:induction false} RunWithoutLogging(stack: seq<Layer>, req: Request, stateId: Option<string>, d: Downstream)
    requires StructuredLogging !in stack && RequestIdLayer !in stack
    ensures Run(stack, req, stateId, d) == Trace(d.inner, [], stateId)
  {
    if stack != [] {
      RunWithoutLogging(stack[1..], req, stateId, d);
    }
  }

  /** A pass-through layer changes nothing about a run. */
  lemma PassThroughStep(l: Layer, rest: seq<Layer>, req: Request, stateId: Option<string>, d: Downstream)
    requires l != RequestIdLayer && l != StructuredLogging
    ensures Run([l] + rest, req, stateId, d) == Run(rest, req, stateId, d)
  {
    assert ([l] + rest)[1..] == rest;
  }

  /** The request-id middleware runs the rest of the stack with the resolved id in
      `request.state` and echoes that id on the way out. */
  lemma RequestIdStep(rest: seq<Layer>, req: Request, stateId: Option<string>, d: Downstream)
    ensures var id := ResolveRequestId(HeaderGet(req.headers, "x-request-id"), d.freshId);
            var t := Run(rest, req, Some(id), d);
            Run([RequestIdLayer] + rest, req, stateId, d) == t.(outcome := EchoRequestId(t.outcome, id))
  {
    assert ([RequestIdLayer] + rest)[1..] == rest;
  }

  /** The logging middleware around a part of the stack that writes nothing: its records
      are the separator and START records followed by one DONE or ERROR record, all seeing
      `stateId`; the outcome is passed on unchanged, so an exception is re-raised rather than
      answered. */
  lemma LoggingAround(req: Request, stateId: Option<string>, d: Downstream, rest: seq<Layer>)
    requires Run(rest, req, stateId, d).records == []
    ensures var t := Run([StructuredLogging] + rest, req, stateId, d);
            var inner := Run(rest, req, stateId, d);
            && t.outcome == inner.outcome
            && t.stateRequestId == inner.stateRequestId
            && t.records == StartRecords(req, stateId) + [ClosingRecord(req, stateId, inner.outcome, d.latencyMs)]
  {
    assert ([StructuredLogging] + rest)[1..] == rest;
    assert StartRecords(req, stateId) + [] == StartRecords(req, stateId);
  }

  /** Those records are three, in the order separator, START, DONE or ERROR, and every one
      carries the `request_id` the logging middleware saw on entry. */
  lemma LoggingRecords(req: Request, stateId: Option<string>, o: Outcome, latencyMs: nat)
    ensures var rs := StartRecords(req, stateId) + [ClosingRecord(req, stateId, o, latencyMs)];
            && |rs| == 3
            && rs[1] == StartRecords(req, stateId)[1]
            && forall i :: 0 <= i < 3 ==> rs[i].extra.requestId == stateId
  {
  }

  /** The running order of the registration as written. */
  lemma StackOfRegistered()
    ensures Stack(Registered) == [StructuredLogging] + ([RateLimit] + ([RequestIdLayer] + [SecurityHeaders, GZip, Cors]))
  {
    var s := Stack(Registered);
    assert s == [StructuredLogging, RateLimit, RequestIdLayer, SecurityHeaders, GZip, Cors];
  }

  /** As registered, the logging middleware runs outside the request-id middleware, so every
      HTTP record lacks the request id and shows rid "-", although the reply carries the
      id header and the application sees the id. */
  lemma AsWrittenLogsLackRequestId(req: Request, d: Downstream)
    ensures var t := Run(Stack(Registered), req, None, d);
            var id := ResolveRequestId(HeaderGet(req.headers, "x-request-id"), d.freshId);
            && |t.records| == 3
            && (forall i :: 0 <= i < 3 ==> t.records[i].extra.requestId == None)
            && t.records[1] == StartRecords(req, None)[1]
            && t.stateRequestId == Some(id)
            && t.outcome == EchoRequestId(d.inner, id)
  {
    var id := ResolveRequestId(HeaderGet(req.headers, "x-request-id"), d.freshId);
    var base := [SecurityHeaders, GZip, Cors];
    RunWithoutLogging(base, req, Some(id), d);
    RequestIdStep(base, req, None, d);
    PassThroughStep(RateLimit, [RequestIdLayer] + base, req, None, d);
    LoggingAround(req, None, d, [RateLimit] + ([RequestIdLayer] + base));
    LoggingRecords(req, None, EchoRequestId(d.inner, id), d.latencyMs);
    StackOfRegistered();
  }

  /** The registration order with the request-id middleware registered last, so it runs
      outermost. */
  const RegisteredCorrected: seq<Layer> := [Cors, GZip, SecurityHeaders, RateLimit, StructuredLogging, RequestIdLayer]

  /** The running order of the corrected registration. */
  lemma StackOfRegisteredCorrected()
    ensures Stack(RegisteredCorrected) == [RequestIdLayer] + ([StructuredLogging] + [RateLimit, SecurityHeaders, GZip, Cors])
  {
    var s := Stack(RegisteredCorrected);
    assert s == [RequestIdLayer, StructuredLogging, RateLimit, SecurityHeaders, GZip, Cors];
  }

  /** In that order every HTTP record carries the same id that the reply echoes. */
  lemma CorrectedLogsCarryRequestId(req: Request, d: Downstream)
    ensures var t := Run(Stack(RegisteredCorrected), req, None, d);
            var id := ResolveRequestId(HeaderGet(req.headers, "x-request-id"), d.freshId);
            && |t.records| == 3
            && (forall i :: 0 <= i < 3 ==> t.records[i].extra.requestId == Some(id))
            && t.records[1] == StartRecords(req, Some(id))[1]
            && t.stateRequestId == Some(id)
            && t.outcome == EchoRequestId(d.inner, id)
  {
    var id := ResolveRequestId(HeaderGet(req.headers, "x-request-id"), d.freshId);
    var base := [RateLimit, SecurityHeaders, GZip, Cors];
    RunWithoutLogging(base, req, Some(id), d);
    LoggingAround(req, Some(id), d, base);
    LoggingRecords(req, Some(id), d.inner, d.latencyMs);
    RequestIdStep([StructuredLogging] + base, req, None, d);
    StackOfRegisteredCorrected();
  }

  /** The reply's id header is the inbound X-Request-ID when present and non-empty, else the
      fresh uuid; either way it is what the application saw in `request.state`. */
  lemma RequestIdEchoed(req: Request, d: Downstream, reply: Reply)
    requires d.inner == Responded(reply)
    ensures var t := Run(Stack(Registered), req, None, d);
            var inbound := HeaderGet(req.headers, "x-request-id");
            && t.outcome.Responded?
            && "x-request-id" in t.outcome.reply.headers
            && Some(t.outcome.reply.headers["x-request-id"]) == t.stateRequestId
            && (inbound.Some? && inbound.value != "" ==> t.outcome.reply.headers["x-request-id"] == inbound.value)
            && (inbound.None? || inbound.value == "" ==> t.outcome.reply.headers["x-request-id"] == d.freshId)
  {
    AsWrittenLogsLackRequestId(req, d);
  }

  // ---------------------------------------------------------------- exception handlers

  /** The JSON body of a handler: the dumped envelope plus "request_id". */
  function Payload(e: Response.ErrorResponse, requestId: Option<string>): (m: map<string, Json>)
    ensures m.Keys == {"code", "message", "detail", "request_id"}
    ensures m["code"] == JStr(e.code) && m["message"] == JStr(e.message) && m["detail"] == e.detail
    ensures m["request_id"] == OptText(requestId)
  {
    Response.Dump(e)["request_id" := OptText(requestId)]
  }

  /** `_validation_exception_handler`: 422, E_VALIDATION, the validation errors as detail. */
  function ValidationHandler(requestId: Option<string>, errors: seq<Json>): (r: JsonResponse)
    ensures r.status == 422 && r.headers == map[]
    ensures r.content == Payload(Response.ErrorResponse(Value(Validation), "Validation error", JList(errors)), requestId)
  {
    JsonResponse(422, Payload(Response.ErrorResponse(Value(Validation), "Validation error", JList(errors)), requestId), map[])
  }

  /** The message the HTTPException handler extracts: the detail itself when it is a
      string, the dict's "message" entry (None when missing) for a dict, else "HTTP error". */
  function DetailMessage(detail: Json): (m: Json)
    ensures detail.JStr? ==> m == detail
    ensures detail.JObject? ==> m == (if "message" in detail.fields then detail.fields["message"] else JNull)
    ensures !detail.JStr? && !detail.JObject? ==> m == JStr("HTTP error")
  {
    match detail
    case JStr(_) => detail
    case JObject(f) => if "message" in f then f["message"] else JNull
    case _ => JStr("HTTP error")
  }

  /** The payload's detail: None for a string detail, the original detail otherwise. */
  function PayloadDetail(detail: Json): (d: Json)
    ensures detail.JStr? ==> d == JNull
    ensures !detail.JStr? ==> d == detail
  {
    if detail.JStr? then JNull else detail
  }

  /** Why building the envelope fails: `ErrorResponse` takes only a string message, so any
      other extracted value raises a validation error. */
  datatype HandlerCrash = MessageNotText(message: Json)

  /** `_http_exception_handler` as written: the status is kept and the code follows it, but
      the exception's own headers are not passed to the response. */
  function HttpExceptionHandler(exc: HttpException, requestId: Option<string>): (r: Result<JsonResponse, HandlerCrash>)
    ensures r.Failure? <==> !DetailMessage(exc.detail).JStr?
    ensures r.Success? ==> r.value.status == exc.status && r.value.headers == map[]
    ensures r.Success? ==> r.value.content == Payload(Response.ErrorResponse(Value(FromStatus(exc.status)),
                             DetailMessage(exc.detail).s, PayloadDetail(exc.detail)), requestId)
  {
    var message := DetailMessage(exc.detail);
    if !message.JStr? then Failure(MessageNotText(message))
    else
      var e := Response.ErrorResponse(Value(FromStatus(exc.status)), message.s, PayloadDetail(exc.detail));
      Success(JsonResponse(exc.status, Payload(e, requestId), map[]))
  }

  /** `_unhandled_exception_handler`: always 500 and E_SERVER_ERROR, with the exception
      text as detail. */
  function UnhandledHandler(requestId: Option<string>, excText: string): (r: JsonResponse)
    ensures r.status == 500 && r.headers == map[]
    ensures r.content == Payload(Response.ErrorResponse(Value(ServerError), "Internal server error", JStr(excText)), requestId)
  {
    JsonResponse(500, Payload(Response.ErrorResponse(Value(ServerError), "Internal server error", JStr(excText)), requestId), map[])
  }

  /** As written the 500 body gives the exception away: its detail is the exception's text,
      so two exceptions with different texts are told apart by the client. */
  lemma UnhandledRevealsExceptionText(requestId: Option<string>, excText: string, otherText: string)
    requires excText != otherText
    ensures UnhandledHandler(requestId, excText).content["detail"] == JStr(excText)
    ensures UnhandledHandler(requestId, excText) != UnhandledHandler(requestId, otherText)
  {
    assert UnhandledHandler(requestId, excText).content["detail"] != UnhandledHandler(requestId, otherText).content["detail"];
  }

  /** `_unhandled_exception_handler` with `detail=None`: the same 500 envelope without the
      exception's text. */
  function UnhandledHandlerCorrected(requestId: Option<string>, excText: string): (r: JsonResponse)
    ensures r.status == 500 && r.headers == map[]
    ensures r.content == Payload(Response.ErrorResponse(Value(ServerError), "Internal server error", JNull), requestId)
  {
    JsonResponse(500, Payload(Response.ErrorResponse(Value(ServerError), "Internal server error", JNull), requestId), map[])
  }

  /** The corrected reply is the same whatever the exception says, so it carries none of its
      text; it differs from the reply as written only in the detail. */
  lemma UnhandledCorrectedHidesExceptionText(requestId: Option<string>, excText: string, otherText: string)
    ensures UnhandledHandlerCorrected(requestId, excText) == UnhandledHandlerCorrected(requestId, otherText)
    ensures UnhandledHandlerCorrected(requestId, excText).content["detail"] == JNull
    ensures UnhandledHandlerCorrected(requestId, excText).content
            == UnhandledHandler(requestId, excText).content["detail" := JNull]
  {
  }

  /** How an `HTTPException` is answered as written: a crash inside the handler escapes to
      the catch-all handler, whose text is `crashText`. */
  function AnswerHttpException(exc: HttpException, requestId: Option<string>, crashText: string): (r: JsonResponse)
    ensures DetailMessage(exc.detail).JStr? ==> r == HttpExceptionHandler(exc, requestId).value
    ensures !DetailMessage(exc.detail).JStr? ==> r == UnhandledHandler(requestId, crashText)
  {
    match HttpExceptionHandler(exc, requestId)
    case Success(resp) => resp
    case Failure(_) => UnhandledHandler(requestId, crashText)
  }

  /** A dict detail without a "message" entry turns a 400 into a 500 envelope. */
  lemma MessagelessDetailBecomesServerError(requestId: Option<string>, crashText: string)
    ensures var exc := HttpException(400, JObject(map["code" := JStr("E_BAD_REQUEST")]), map[]);
            && HttpExceptionHandler(exc, requestId).Failure?
            && AnswerHttpException(exc, requestId, crashText).status == 500
            && AnswerHttpException(exc, requestId, crashText).content["code"] == JStr("E_SERVER_ERROR")
  {
    var f := map["code" := JStr("E_BAD_REQUEST")];
    assert "message" !in f;
  }

  /** The exception's headers are lost: a 401 carrying `WWW-Authenticate` is answered
      without it. */
  lemma HandlerDropsHeaders(requestId: Option<string>)
    ensures var exc := HttpException(401, JStr("Unauthorized"), map["WWW-Authenticate" := "Bearer"]);
            && HttpExceptionHandler(exc, requestId).Success?
            && "WWW-Authenticate" !in HttpExceptionHandler(exc, requestId).value.headers
  {
  }

  /** The handler as intended: a non-string message falls back to "HTTP error" and the
      exception's headers are kept. */
  function HttpExceptionHandlerCorrected(exc: HttpException, requestId: Option<string>): (r: JsonResponse)
    ensures r.status == exc.status && r.headers == exc.headers
    ensures r.content.Keys == {"code", "message", "detail", "request_id"}
    ensures r.content["code"] == JStr(Value(FromStatus(exc.status)))
    ensures r.content["detail"] == PayloadDetail(exc.detail) && r.content["request_id"] == OptText(requestId)
    ensures DetailMessage(exc.detail).JStr? ==> r.content["message"] == DetailMessage(exc.detail)
    ensures !DetailMessage(exc.detail).JStr? ==> r.content["message"] == JStr("HTTP error")
  {
    var m := DetailMessage(exc.detail);
    var message := if m.JStr? then m.s else "HTTP error";
    var content := Payload(Response.ErrorResponse(Value(FromStatus(exc.status)), message, PayloadDetail(exc.detail)), requestId);
    JsonResponse(exc.status, content, exc.headers)
  }

  /** The corrected handler answers every `HTTPException` with its own status, and agrees
      with the handler as written on the body whenever that one does not crash. */
  lemma CorrectedHandlerRefines(exc: HttpException, requestId: Option<string>)
    ensures HttpExceptionHandler(exc, requestId).Success? ==>
              HttpExceptionHandlerCorrected(exc, requestId).content == HttpExceptionHandler(exc, requestId).value.content
    ensures HttpExceptionHandlerCorrected(exc, requestId).status == exc.status
  {
  }

  // ---------------------------------------------------------------- CORS settings

  /** `_add_cors`'s origins: the comma-split pieces of CORS_ORIGINS, stripped, with no
      special case for the empty value. */
  function MiddlewareCorsOrigins(env: Env): (r: seq<string>)
    ensures |r| == Count(GetEnv(env, "CORS_ORIGINS", "*"), ',') + 1
    ensures forall i :: 0 <= i < |r| ==> r[i] == Strip(r[i]) && ',' !in r[i]
  {
    var pieces := Split(GetEnv(env, "CORS_ORIGINS", "*"), ',');
    StripAllClean(pieces);
    StripAll(pieces)
  }

  /** The middleware and `Settings.load` read the same origins except for an empty
      CORS_ORIGINS, which the middleware reads as one empty origin and the settings as "*". */
  lemma CorsOriginsAgreeUnlessEmpty(env: Env)
    ensures GetEnv(env, "CORS_ORIGINS", "*") != "" ==> MiddlewareCorsOrigins(env) == CorsOrigins(env)
    ensures GetEnv(env, "CORS_ORIGINS", "*") == "" ==> MiddlewareCorsOrigins(env) == [""] && CorsOrigins(env) == ["*"]
  {
    if GetEnv(env, "CORS_ORIGINS", "*") == "" {
      SplitWithoutSeparator("", ',');
      StripUnchanged("");
    }
  }

  /** The default max age text reads as 600. */
  lemma DefaultMaxAge()
    ensures ParseInt("600") == Some(600)
  {
    assert NatToString(600) == "600" by {
      assert NatToString(6) == "6";
      assert NatToString(60) == "60";
    }
    ParseIntRoundTrip(600);
  }

  /** `int(os.getenv("CORS_MAX_AGE", "600"))`: a non-numeric value raises. */
  function CorsMaxAge(env: Env): (r: Option<int>)
    ensures "CORS_MAX_AGE" !in env ==> r == Some(600)
    ensures "CORS_MAX_AGE" in env ==> r == ParseInt(env["CORS_MAX_AGE"])
  {
    DefaultMaxAge();
    ParseInt(GetEnv(env, "CORS_MAX_AGE", "600"))
  }
}
