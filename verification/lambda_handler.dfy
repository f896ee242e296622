/**
 * The AWS Lambda entry point of the relay (lambda/src/handler.ts): answer CORS preflight, check
 * the configuration, read the request from the event, POST it to the pipeline and turn every
 * outcome into a response with CORS headers. Everything runs inside one try block whose catch
 * answers 500 with the thrown error's message.
 */
module LambdaHandler {
  import opened Wrappers
  import opened JsValue
  import opened Http
  import opened Environment
  import LambdaConfig
  import LambdaWebhook

  /** The fields of an invocation event the handler reads. */
  datatype LambdaEvent = LambdaEvent(body: Option<Json>, message: Option<Json>, data: Option<Json>, httpMethod: Option<string>)

  datatype LambdaResponse = LambdaResponse(statusCode: int, headers: map<string, string>, body: string)

  type LambdaCall = OutboundCall<Option<Json>>

  /** One invocation: the log lines written, the outbound call if one was made, and the response. */
  datatype Invocation = Invocation(logs: seq<LogEntry>, call: Option<LambdaCall>, response: LambdaResponse)

  const CorsHeaders: map<string, string> :=
    map["Access-Control-Allow-Origin" := "*",
        "Access-Control-Allow-Methods" := "POST, OPTIONS",
        "Access-Control-Allow-Headers" := "Content-Type"]

  const JsonHeaders: map<string, string> := CorsHeaders["Content-Type" := "application/json"]

  const UnhandledLogMessage := "Unhandled error in Lambda handler"
  const BodyParseLogMessage := "Failed to parse request body"
  const InvalidBodyMessage := "Invalid request body format"
  const MessageOrDataRequired := "Either message or data is required"
  /** The message of the TypeError raised by destructuring a body that parsed to `null`. */
  const NullBodyMessage := "Cannot destructure property 'message' of 'requestBody' as it is null."

  /** The `ErrorResponse` object: `error: true`, the message, and the details when they are defined. */
  function ErrorBody(message: string, details: Option<Json>): Json {
    Obj([Field("error", Bool(true)), Field("message", Str(message))] + Present("details", details))
  }

  /** The error body reads back `error: true`, the message, and the details exactly when they are defined. */
  lemma ErrorBodyFields(message: string, details: Option<Json>)
    ensures var b := ErrorBody(message, details);
            b.Obj? && Lookup(b.fields, "error") == Some(Bool(true)) &&
            Lookup(b.fields, "message") == Some(Str(message)) && Lookup(b.fields, "details") == details
  {
    var head := [Field("error", Bool(true)), Field("message", Str(message))];
    assert head[..1] == [Field("error", Bool(true))];
    assert [Field("error", Bool(true))][..0] == [];
    if details.Some? {
      var fields := head + [Field("details", details.value)];
      assert ErrorBody(message, details).fields == fields;
      assert fields[..2] == head;
      assert Lookup(fields, "error") == Lookup(head, "error");
    }
  }

  /** `buildErrorResponse(message, statusCode = 500, details)`. */
  function BuildErrorResponse(message: string, statusCode: Option<int>, details: Option<Json>, codec: Codec): (r: LambdaResponse)
    ensures r.statusCode == statusCode.GetOr(500)
    ensures r.headers == JsonHeaders
    ensures r.body == codec.stringify(ErrorBody(message, details))
  {
    LambdaResponse(statusCode.GetOr(500), JsonHeaders, codec.stringify(ErrorBody(message, details)))
  }

  /** `buildSuccessResponse(data)`: 200 with the JSON text of the chat response. */
  function BuildSuccessResponse(data: ChatResponse, codec: Codec): (r: LambdaResponse)
    ensures r.statusCode == 200 && r.headers == JsonHeaders
    ensures r.body == codec.stringify(ChatResponseJson(data))
  {
    LambdaResponse(200, JsonHeaders, codec.stringify(ChatResponseJson(data)))
  }

  /** How the request is read from the event. */
  datatype BodyRead = Read(req: ChatRequest) | Unparseable | NullBody

  /**
   * A text body (the API Gateway form) is parsed and destructured; otherwise the event's own
   * `message` and `data` are used (direct invocation).
   */
  function ReadBody(event: LambdaEvent, codec: Codec): (r: BodyRead)
    ensures (event.body.Some? && event.body.value.Str?) || r == Read(ChatRequest(event.message, event.data))
  {
    if event.body.Some? && event.body.value.Str? then
      match codec.parse(event.body.value.s)
      case None => Unparseable
      case Some(parsed) =>
        if parsed.Null? then NullBody else Read(ChatRequest(Prop(parsed, "message"), Prop(parsed, "data")))
    else Read(ChatRequest(event.message, event.data))
  }

  /** The catch block: log the error and answer 500 with its message. */
  function Caught(logs: seq<LogEntry>, message: string, codec: Codec): Invocation {
    Invocation(logs + [LogEntry(Error, UnhandledLogMessage, [("error", Some(Str(message)))])], None,
               BuildErrorResponse(message, Some(500), None, codec))
  }

  /** After the call: map its outcome to a response. */
  function AfterCall(logs: seq<LogEntry>, call: LambdaCall, net: Transport, extract: Json -> Json, now: string, codec: Codec): Invocation {
    match Callout(call.config, net)
    case Failed(e) =>
      var m := LambdaWebhook.HandleError(e);
      Invocation(logs + m.logs, Some(call),
                 BuildErrorResponse(LambdaWebhook.MessageOf(m.result), LambdaWebhook.StatusCodeOf(m.result), LambdaWebhook.DetailsOf(m.result), codec))
    case Settled(resp) =>
      if resp.status != 200 then
        Invocation(logs, Some(call), BuildErrorResponse(NonOkMessage, Some(resp.status), Some(resp.data), codec))
      else
        var parsed := if resp.data.Str? then codec.parse(resp.data.s) else Some(resp.data);
        if parsed.None? then
          Invocation(logs + [LogEntry(Error, ParseFailureMessage, [("data", Some(resp.data))])], Some(call),
                     BuildErrorResponse(InvalidFormatMessage, Some(500), None, codec))
        else
          Invocation(logs, Some(call),
                     BuildSuccessResponse(LambdaWebhook.BuildSuccessResponse(extract(parsed.value), resp.headers, now, codec), codec))
  }

  /**
   * `handler(event)`. `cfg` is the configuration loaded at cold start, `env` the environment when
   * `validate` runs, `net` what the network gives the call, and `extract` the Lambda copy of
   * `PipelineOutput.extract`, which is not part of this model.
   */
  function Handler(event: LambdaEvent, cfg: LambdaConfig.Config, env: Env, net: Transport,
                   extract: Json -> Json, now: string, codec: Codec): (r: Invocation)
    ensures forall k :: k in CorsHeaders ==> k in r.response.headers && r.response.headers[k] == CorsHeaders[k]
    ensures event.httpMethod == Some("OPTIONS") <==> r.response.headers == CorsHeaders
  {
    if event.httpMethod == Some("OPTIONS") then
      Invocation([], None, LambdaResponse(200, CorsHeaders, ""))
    else
      assert "Content-Type" in JsonHeaders && "Content-Type" !in CorsHeaders;
      match LambdaConfig.Validate(cfg, env)
      case Some(thrown) => Caught([], thrown, codec)
      case None =>
        match ReadBody(event, codec)
        case Unparseable =>
          Invocation([LogEntry(Error, BodyParseLogMessage, [("body", event.body)])], None,
                     BuildErrorResponse(InvalidBodyMessage, Some(400), None, codec))
        case NullBody => Caught([], NullBodyMessage, codec)
        case Read(req) =>
          if Empty(req) then Invocation([], None, BuildErrorResponse(MessageOrDataRequired, Some(400), None, codec))
          else
            var call := OutboundCall(Post, cfg.webhook.baseUrl,
                                     LambdaWebhook.BuildPayload(req.message, req.data, codec), LambdaWebhook.BuildConfig(cfg));
            AfterCall([LogEntry(Info, ProcessingMessage, ProcessingContext(req))], call, net, extract, now, codec)
  }

  /** A preflight is answered before the configuration is checked: 200, CORS headers, empty body, no log. */
  lemma PreflightFirst(event: LambdaEvent, cfg: LambdaConfig.Config, env: Env, net: Transport, extract: Json -> Json, now: string, codec: Codec)
    requires event.httpMethod == Some("OPTIONS")
    ensures Handler(event, cfg, env, net, extract, now, codec) == Invocation([], None, LambdaResponse(200, CorsHeaders, ""))
  {
  }

  /** A configuration that does not validate is caught and answered 500 with the thrown message, before any call. */
  lemma InvalidConfigurationCaught(event: LambdaEvent, cfg: LambdaConfig.Config, env: Env, net: Transport, extract: Json -> Json, now: string, codec: Codec)
    requires event.httpMethod != Some("OPTIONS") && LambdaConfig.Validate(cfg, env).Some?
    ensures var r := Handler(event, cfg, env, net, extract, now, codec);
            r.call.None? && r.response.statusCode == 500 &&
            r.response.body == codec.stringify(ErrorBody(LambdaConfig.Validate(cfg, env).value, None))
  {
  }

  /** The call is made exactly when the request passed the preflight check, the configuration check and validation. */
  lemma CallOnlyForValidRequests(event: LambdaEvent, cfg: LambdaConfig.Config, env: Env, net: Transport, extract: Json -> Json, now: string, codec: Codec)
    ensures Handler(event, cfg, env, net, extract, now, codec).call.Some? <==>
              event.httpMethod != Some("OPTIONS") && LambdaConfig.Validate(cfg, env).None? &&
              ReadBody(event, codec).Read? && !Empty(ReadBody(event, codec).req)
  {
  }

  /** A text body takes precedence over the event's own `message` and `data`. */
  lemma TextBodyWins(s: string, message: Option<Json>, data: Option<Json>, verb: Option<string>, fields: seq<Field>, codec: Codec)
    requires codec.parse(s) == Some(Obj(fields))
    ensures ReadBody(LambdaEvent(Some(Str(s)), message, data, verb), codec) ==
              Read(ChatRequest(Lookup(fields, "message"), Lookup(fields, "data")))
  {
  }

  /**
   * An error without a reply and without the timeout code is not a LambdaError: it has no status
   * code, so the default 500 applies, with the error's own message and no details.
   */
  lemma PlainErrorBecomes500(event: LambdaEvent, cfg: LambdaConfig.Config, env: Env, message: string, code: Option<string>,
                             extract: Json -> Json, now: string, codec: Codec)
    requires Handler(event, cfg, env, NoReply(message, code), extract, now, codec).call.Some?
    requires code != Some(TimeoutCode)
    ensures Handler(event, cfg, env, NoReply(message, code), extract, now, codec).response ==
              LambdaResponse(500, JsonHeaders, codec.stringify(ErrorBody(message, None)))
  {
    CallOnlyForValidRequests(event, cfg, env, NoReply(message, code), extract, now, codec);
  }

  /** A text body that is not JSON is logged and answered 400 "Invalid request body format", with no call. */
  lemma UnparseableBodyIs400(event: LambdaEvent, cfg: LambdaConfig.Config, env: Env, net: Transport, extract: Json -> Json, now: string, codec: Codec)
    requires event.httpMethod != Some("OPTIONS") && LambdaConfig.Validate(cfg, env).None?
    requires event.body.Some? && event.body.value.Str? && codec.parse(event.body.value.s).None?
    ensures var r := Handler(event, cfg, env, net, extract, now, codec);
            r.call.None? && r.logs == [LogEntry(Error, BodyParseLogMessage, [("body", event.body)])] &&
            r.response == BuildErrorResponse(InvalidBodyMessage, Some(400), None, codec)
  {
  }

  /** A request with neither a truthy message nor truthy data is answered 400, with no log and no call. */
  lemma EmptyRequestIs400(event: LambdaEvent, cfg: LambdaConfig.Config, env: Env, net: Transport, extract: Json -> Json, now: string, codec: Codec)
    requires event.httpMethod != Some("OPTIONS") && LambdaConfig.Validate(cfg, env).None?
    requires ReadBody(event, codec).Read? && Empty(ReadBody(event, codec).req)
    ensures Handler(event, cfg, env, net, extract, now, codec) ==
              Invocation([], None, BuildErrorResponse(MessageOrDataRequired, Some(400), None, codec))
  {
  }

  /** A text body that parses to `null` fails the destructuring, which the catch answers 500. */
  lemma NullBodyCaught(event: LambdaEvent, cfg: LambdaConfig.Config, env: Env, net: Transport, extract: Json -> Json, now: string, codec: Codec)
    requires event.httpMethod != Some("OPTIONS") && LambdaConfig.Validate(cfg, env).None?
    requires event.body.Some? && event.body.value.Str? && codec.parse(event.body.value.s) == Some(Null)
    ensures var r := Handler(event, cfg, env, net, extract, now, codec);
            r.call.None? && r.response == BuildErrorResponse(NullBodyMessage, Some(500), None, codec)
  {
  }

  /** A reply the client accepts with a status other than 200 is answered with that status, "Pipeline returned an error" and the reply body as details. */
  lemma NonOkReplyReturned(event: LambdaEvent, cfg: LambdaConfig.Config, env: Env, reply: UpstreamResponse, extract: Json -> Json, now: string, codec: Codec)
    requires Handler(event, cfg, env, Replied(reply), extract, now, codec).call.Some?
    requires reply.status != 200 && reply.status < 500
    ensures Handler(event, cfg, env, Replied(reply), extract, now, codec).response ==
              BuildErrorResponse(NonOkMessage, Some(reply.status), Some(reply.data), codec)
  {
    CallOnlyForValidRequests(event, cfg, env, Replied(reply), extract, now, codec);
  }

  /** A reply of 500 or above is rejected by the client and mapped by `handleError` to its own status, "Pipeline processing failed" and the reply body. */
  lemma ServerErrorReplyKeepsStatus(event: LambdaEvent, cfg: LambdaConfig.Config, env: Env, reply: UpstreamResponse, extract: Json -> Json, now: string, codec: Codec)
    requires Handler(event, cfg, env, Replied(reply), extract, now, codec).call.Some?
    requires reply.status >= 500
    ensures Handler(event, cfg, env, Replied(reply), extract, now, codec).response ==
              BuildErrorResponse(FailedMessage, Some(reply.status), Some(reply.data), codec)
  {
    CallOnlyForValidRequests(event, cfg, env, Replied(reply), extract, now, codec);
  }

  /** A timed-out call is answered 504 with the timeout message and no details. */
  lemma TimeoutIs504(event: LambdaEvent, cfg: LambdaConfig.Config, env: Env, message: string, extract: Json -> Json, now: string, codec: Codec)
    requires Handler(event, cfg, env, NoReply(message, Some(TimeoutCode)), extract, now, codec).call.Some?
    ensures Handler(event, cfg, env, NoReply(message, Some(TimeoutCode)), extract, now, codec).response ==
              LambdaResponse(504, JsonHeaders, codec.stringify(ErrorBody(TimeoutMessage, None)))
  {
    CallOnlyForValidRequests(event, cfg, env, NoReply(message, Some(TimeoutCode)), extract, now, codec);
  }

  /** A 200 text reply that is not JSON is logged and answered 500 "Invalid response format from webhook". */
  lemma UnparseableReplyIs500(event: LambdaEvent, cfg: LambdaConfig.Config, env: Env, reply: UpstreamResponse, extract: Json -> Json, now: string, codec: Codec)
    requires Handler(event, cfg, env, Replied(reply), extract, now, codec).call.Some?
    requires reply.status == 200 && reply.data.Str? && codec.parse(reply.data.s).None?
    ensures var r := Handler(event, cfg, env, Replied(reply), extract, now, codec);
            r.response == BuildErrorResponse(InvalidFormatMessage, Some(500), None, codec) &&
            r.logs[|r.logs| - 1] == LogEntry(Error, ParseFailureMessage, [("data", Some(reply.data))])
  {
    CallOnlyForValidRequests(event, cfg, env, Replied(reply), extract, now, codec);
  }

  /**
   * A 200 reply whose body is JSON, or text that parses, is answered with the chat response built
   * from the extraction of the parsed value and the reply's headers.
   */
  lemma SuccessCarriesExtraction(event: LambdaEvent, cfg: LambdaConfig.Config, env: Env, reply: UpstreamResponse, parsed: Json,
                                 extract: Json -> Json, now: string, codec: Codec)
    requires Handler(event, cfg, env, Replied(reply), extract, now, codec).call.Some?
    requires reply.status == 200
    requires (if reply.data.Str? then codec.parse(reply.data.s) else Some(reply.data)) == Some(parsed)
    ensures Handler(event, cfg, env, Replied(reply), extract, now, codec).response ==
              BuildSuccessResponse(LambdaWebhook.BuildSuccessResponse(extract(parsed), reply.headers, now, codec), codec)
  {
    CallOnlyForValidRequests(event, cfg, env, Replied(reply), extract, now, codec);
  }

  /** Status 200 comes back only for a preflight or for a 200 reply whose body could be read. */
  lemma OkOnlyOnSuccess(event: LambdaEvent, cfg: LambdaConfig.Config, env: Env, net: Transport, extract: Json -> Json, now: string, codec: Codec)
    ensures var r := Handler(event, cfg, env, net, extract, now, codec);
            r.response.statusCode == 200 <==>
              event.httpMethod == Some("OPTIONS") ||
              (r.call.Some? && net.Replied? && net.reply.status == 200 &&
               (net.reply.data.Str? ==> codec.parse(net.reply.data.s).Some?))
  {
    CallOnlyForValidRequests(event, cfg, env, net, extract, now, codec);
  }
}
