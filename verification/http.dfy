/**
 * What the relay's request handlers share: the upstream reply and the error the outbound call
 * can fail with, the settled result `Callout.call` yields, logger calls, the outbound request
 * configuration, the error record handed to Express `next`, the two success envelopes, and an
 * Express exchange that records which effects a handler performed, in order.
 */
module Http {
  import opened Wrappers
  import opened JsValue
  import opened JsText

  datatype Level = Info | Warn | Error

  /** One logger or console call: its level, its message and the entries of its context object. */
  datatype LogEntry = LogEntry(level: Level, message: string, context: seq<(string, Option<Json>)>)

  /** Reply headers by lower-case name, as Node delivers them. */
  type Headers = map<string, string>

  /** `headers[name]`: undefined when the header is absent. */
  function HeaderValue(headers: Headers, name: string): (r: Option<string>)
    ensures r.Some? <==> name in headers
    ensures r.Some? ==> r.value == headers[name]
  {
    if name in headers then Some(headers[name]) else None
  }

  const ResponseTimeHeader := "x-response-time"

  /** A reply of the upstream pipeline: status, body as delivered (parsed JSON or raw text) and headers. */
  datatype UpstreamResponse = UpstreamResponse(status: int, data: Json, headers: Headers)

  /**
   * An error the outbound call rejected with: its message, its `code` (ECONNABORTED on a timeout
   * or abort) and, when the upstream did reply, that reply.
   */
  datatype TransportError = TransportError(message: string, code: Option<string>, response: Option<UpstreamResponse>)

  /** What `Callout.call` resolves to: `[err]` or `[null, response]`. */
  datatype Outcome = Failed(error: TransportError) | Settled(response: UpstreamResponse)

  const TimeoutCode := "ECONNABORTED"
  const TimeoutMessage := "Pipeline processing timeout - request took too long"
  const FailedMessage := "Pipeline processing failed"
  const NonOkMessage := "Pipeline returned an error"
  const InvalidFormatMessage := "Invalid response format from webhook"
  const HandleErrorLogMessage := "Chat endpoint error"

  /** The HTTP error the Express handlers pass to `next`: message, status and optional details. */
  datatype AppError = AppError(message: string, status: int, details: Option<Json>)

  /** The result of `Webhook.handleError`: a newly built error, or the incoming error object itself. */
  datatype Handled<E> = Mapped(mapped: E) | Unchanged(raw: TransportError)

  /** What `handleError` returns, with the log lines it writes. */
  datatype Mapping<E> = Mapping(result: Handled<E>, logs: seq<LogEntry>)

  /** The context object of the error log `handleError` writes: message, response data and status. */
  function ErrorContext(error: TransportError): seq<(string, Option<Json>)> {
    [("message", Some(Str(error.message))),
     ("response", if error.response.Some? then Some(error.response.value.data) else None),
     ("status", if error.response.Some? then Some(Num(error.response.value.status as real)) else None)]
  }

  /**
   * The outbound request options: Content-Type and Authorization headers, query parameters,
   * timeout in milliseconds, and the `validateStatus` threshold, `status < validateBelow`.
   */
  datatype RequestConfig = RequestConfig(
    contentType: string,
    authorization: string,
    params: seq<(string, string)>,
    timeout: int,
    validateBelow: int)

  /** The threshold every webhook configuration of the relay uses. */
  const AcceptBelow := 500

  /** `validateStatus(status)`. */
  predicate ValidateStatus(cfg: RequestConfig, status: int) {
    status < cfg.validateBelow
  }

  /**
   * How the HTTP client settles a reply under `cfg`: a reply with status 0 or an accepted status
   * resolves; any other rejects with an error that carries the reply, whose code is
   * ERR_BAD_REQUEST for 4xx and ERR_BAD_RESPONSE for 5xx.
   */
  function Settle(cfg: RequestConfig, reply: UpstreamResponse): (r: Outcome)
    ensures r.Settled? <==> reply.status == 0 || ValidateStatus(cfg, reply.status)
    ensures r.Settled? ==> r.response == reply
    ensures r.Failed? ==> r.error.response == Some(reply) && r.error.code != Some(TimeoutCode)
  {
    if reply.status == 0 || ValidateStatus(cfg, reply.status) then Settled(reply)
    else
      var band := reply.status / 100 - 4;
      var code := if band == 0 then Some("ERR_BAD_REQUEST") else if band == 1 then Some("ERR_BAD_RESPONSE") else None;
      Failed(TransportError("Request failed with status code " + IntToDecimal(reply.status), code, Some(reply)))
  }

  /** Under a `status < 500` rule, a rejected reply always carries a 5xx-or-higher status. */
  lemma SettleRejectsOnlyServerErrors(cfg: RequestConfig, reply: UpstreamResponse)
    requires cfg.validateBelow == AcceptBelow
    ensures Settle(cfg, reply).Failed? <==> reply.status >= 500
    ensures Settle(cfg, reply).Settled? ==> reply.status < 500
  {
  }

  /**
   * What the network gives the outbound call: a reply, or no reply at all (a timeout, a refused
   * connection), with the message and code of the error the client raises.
   */
  datatype Transport = Replied(reply: UpstreamResponse) | NoReply(message: string, code: Option<string>)

  /** `Callout.call(request)`: the client's settlement turned into `[err]` or `[null, response]`. */
  function Callout(cfg: RequestConfig, net: Transport): Outcome {
    match net
    case Replied(reply) => Settle(cfg, reply)
    case NoReply(message, code) => Failed(TransportError(message, code, None))
  }

  datatype Verb = Post | Put

  /**
   * The body the data-wins builders send: the request's `data` object, or `{text: message}`,
   * whose `text` is undefined when the request had no message.
   */
  datatype JsonPayload = Data(data: Json) | TextObject(text: Option<Json>)

  /** One outbound request: method, URL, body and options. */
  datatype OutboundCall<P> = OutboundCall(verb: Verb, url: string, payload: P, config: RequestConfig)

  /**
   * The success body of the api and lambda relays. `message` is undefined (None) when it was
   * read from an empty `answers` array.
   */
  datatype ChatResponse = ChatResponse(success: bool, message: Option<Json>, timestamp: string, processingTime: Option<string>)

  /** The success body of the older Express relay and of the standalone server. */
  datatype ResultEnvelope = ResultEnvelope(success: bool, result: Json, timestamp: string, processingTime: Option<string>)

  /** JSON.stringify drops properties whose value is undefined. */
  function Present(key: string, v: Option<Json>): seq<Field> {
    if v.Some? then [Field(key, v.value)] else []
  }

  function OptStr(s: Option<string>): Option<Json> {
    if s.Some? then Some(Str(s.value)) else None
  }

  /** The JSON object a ChatResponse serialises as. */
  function ChatResponseJson(r: ChatResponse): Json {
    Obj([Field("success", Bool(r.success))] + Present("message", r.message) +
        [Field("timestamp", Str(r.timestamp)),
         Field("metadata", Obj(Present("processingTime", OptStr(r.processingTime))))])
  }

  /** One effect of an Express handler: a log line, the outbound call, `next(error)` or `res.json(body)`. */
  datatype Effect<C, N, S> = Log(entry: LogEntry) | Call(call: C) | Next(error: N) | Reply(body: S)

  /** `next` and `res.json` end a request. */
  predicate Ends<C, N, S>(e: Effect<C, N, S>) {
    e.Next? || e.Reply?
  }

  /** A request is answered exactly once, by its last effect. */
  predicate AnsweredOnce<C, N, S>(effects: seq<Effect<C, N, S>>) {
    && |effects| > 0
    && Ends(effects[|effects| - 1])
    && forall i :: 0 <= i < |effects| - 1 ==> !Ends(effects[i])
  }

  /** The effects of writing `entries` to the log, in order. */
  function Logged<C, N, S>(entries: seq<LogEntry>): (r: seq<Effect<C, N, S>>)
    ensures |r| == |entries| && forall i :: 0 <= i < |r| ==> r[i] == Effect.Log(entries[i])
  {
    seq(|entries|, i requires 0 <= i < |entries| => Effect.Log(entries[i]))
  }

  /** The fields a chat request's body is destructured into. */
  datatype ChatRequest = ChatRequest(message: Option<Json>, data: Option<Json>)

  /** `!message && !data`: the request carries nothing to forward. */
  predicate Empty(req: ChatRequest) {
    !TruthyOpt(req.message) && !TruthyOpt(req.data)
  }

  /** The context of the "Processing chat request" log line: truthiness flags only. */
  function ProcessingContext(req: ChatRequest): seq<(string, Option<Json>)> {
    [("hasMessage", Some(Bool(TruthyOpt(req.message)))), ("hasData", Some(Bool(TruthyOpt(req.data))))]
  }

  const ProcessingMessage := "Processing chat request"
  const ParseFailureMessage := "Failed to parse webhook response"

  /** The Express request/response pair of one request, with the effects performed on it so far. */
  class Exchange<C, N, S> {
    var effects: seq<Effect<C, N, S>>

    constructor()
      ensures effects == []
    {
      effects := [];
    }

    method Log(entry: LogEntry)
      modifies this
      ensures effects == old(effects) + [Effect.Log(entry)]
    {
      effects := effects + [Effect.Log(entry)];
    }

    method Call(call: C)
      modifies this
      ensures effects == old(effects) + [Effect.Call(call)]
    {
      effects := effects + [Effect.Call(call)];
    }

    /** Writes `entries` to the log, one after the other. */
    method LogEach(entries: seq<LogEntry>)
      modifies this
      ensures effects == old(effects) + Logged(entries)
    {
      var i := 0;
      while i < |entries|
        invariant 0 <= i <= |entries|
        invariant effects == old(effects) + Logged(entries[..i])
      {
        effects := effects + [Effect.Log(entries[i])];
        assert Logged<C, N, S>(entries[..i + 1]) == Logged<C, N, S>(entries[..i]) + [Effect.Log(entries[i])];
        i := i + 1;
      }
      assert entries[..i] == entries;
    }

    /** `next(error)`. */
    method Next(error: N)
      modifies this
      ensures effects == old(effects) + [Effect.Next(error)]
    {
      effects := effects + [Effect.Next(error)];
    }

    /** `res.json(body)`. */
    method Reply(body: S)
      modifies this
      ensures effects == old(effects) + [Effect.Reply(body)]
    {
      effects := effects + [Effect.Reply(body)];
    }
  }
}
