/**
 * The `/api/chat` route of the standalone server (jeffspeaksnode/src/server.ts): one try block
 * around validation, the POST to the pipeline, the status check and the extraction, and a catch
 * that logs every error and maps client errors before passing them to `next`.
 */
module JeffServer {
  import opened Wrappers
  import opened JsValue
  import opened Http
  import AppWebhook
  import JeffExtractOutput
  import JeffErrorHandler

  /**
   * The webhook settings the route reads from its configuration module, which is not part of
   * this model: base URL, API key and timeout.
   */
  datatype Settings = Settings(baseUrl: string, apiKey: string, timeout: int)

  type JeffCall = OutboundCall<JsonPayload>
  /** `next` receives an AppError instance (Mapped) or the client's own error (Unchanged). */
  type JeffEffect = Effect<JeffCall, Handled<AppError>, ResultEnvelope>

  const RequiredMessage := "Either \"message\" or \"data\" field is required"
  const ProcessingLine := "Processing chat request:"
  const CatchLine := "Chat endpoint error:"

  /** What the try block can throw: an AppError of its own, or the client's error. */
  datatype Thrown = Raised(app: AppError) | ClientError(client: TransportError)

  /** The request options: JSON body, the API key as header and `apikey` parameter, `status < 500` accepted. */
  function WebhookConfig(s: Settings): (r: RequestConfig)
    ensures r.authorization == s.apiKey && r.params == [("apikey", s.apiKey)]
    ensures forall status :: ValidateStatus(r, status) <==> status < 500
  {
    RequestConfig("application/json", s.apiKey, [("apikey", s.apiKey)], s.timeout, AcceptBelow)
  }

  /** `data || {text: message}`, the same rule as the older relay's `buildPayload`. */
  function Outbound(req: ChatRequest, s: Settings): JeffCall {
    OutboundCall(Post, s.baseUrl, AppWebhook.BuildPayload(req.message, req.data), WebhookConfig(s))
  }

  /** The catch block: log, then a timeout becomes a 504, a reply a "processing failed" error, anything else passes unchanged. */
  function Catch(thrown: Thrown): (r: seq<JeffEffect>)
    ensures |r| == 2 && r[0].Log? && r[0].entry.level == Error && r[1].Next?
    ensures thrown.Raised? ==> r[1] == Effect.Next(Mapped(thrown.app))
  {
    match thrown
    case Raised(e) =>
      [Effect.Log(LogEntry(Error, CatchLine, [("message", Some(Str(e.message))), ("response", None), ("status", None)])),
       Effect.Next(Mapped(e))]
    case ClientError(e) =>
      [Effect.Log(LogEntry(Error, CatchLine, ErrorContext(e))),
       Effect.Next(
         if e.code == Some(TimeoutCode) then Mapped(AppError(TimeoutMessage, 504, None))
         else if e.response.Some? then Mapped(AppError(FailedMessage, e.response.value.status, Some(e.response.value.data)))
         else Unchanged(e))]
  }

  /** The effects of one request, in order; `now` is the ISO timestamp of the moment. */
  function RouteEffects(req: ChatRequest, s: Settings, net: Transport, now: string, codec: Codec): (r: seq<JeffEffect>)
    ensures AnsweredOnce(r)
    ensures Empty(req) ==> r == Catch(Raised(AppError(RequiredMessage, 400, None)))
    ensures !Empty(req) ==> |r| >= 3 && r[0] == Effect.Log(LogEntry(Info, ProcessingLine, ProcessingContext(req))) &&
                            r[1] == Effect.Call(Outbound(req, s))
  {
    if Empty(req) then Catch(Raised(AppError(RequiredMessage, 400, None)))
    else
      var call := Outbound(req, s);
      var prefix := [Effect.Log(LogEntry(Info, ProcessingLine, ProcessingContext(req))), Effect.Call(call)];
      match Callout(call.config, net)
      case Failed(e) => prefix + Catch(ClientError(e))
      case Settled(resp) =>
        if resp.status != 200 then prefix + Catch(Raised(AppError(NonOkMessage, resp.status, Some(resp.data))))
        else
          var x := JeffExtractOutput.ExtractPipelineOutput(resp.data, codec);
          prefix + Logged(x.logs) + [Effect.Reply(ResultEnvelope(true, x.value, now, HeaderValue(resp.headers, ResponseTimeHeader)))]
  }

  /** The route handler, performing its effects on the exchange `ex`. */
  method Chat(req: ChatRequest, s: Settings, net: Transport, now: string, codec: Codec,
              ex: Exchange<JeffCall, Handled<AppError>, ResultEnvelope>)
    modifies ex
    ensures ex.effects == old(ex.effects) + RouteEffects(req, s, net, now, codec)
  {
    var thrown: Option<Thrown> := None;
    if !TruthyOpt(req.message) && !TruthyOpt(req.data) {
      thrown := Some(Raised(AppError(RequiredMessage, 400, None)));
    } else {
      ex.Log(LogEntry(Info, ProcessingLine, ProcessingContext(req)));
      var call := Outbound(req, s);
      ex.Call(call);
      var outcome := Callout(call.config, net);
      if outcome.Failed? {
        thrown := Some(ClientError(outcome.error));
      } else if outcome.response.status != 200 {
        thrown := Some(Raised(AppError(NonOkMessage, outcome.response.status, Some(outcome.response.data))));
      } else {
        var x := JeffExtractOutput.ExtractPipelineOutput(outcome.response.data, codec);
        ex.LogEach(x.logs);
        ex.Reply(ResultEnvelope(true, x.value, now, HeaderValue(outcome.response.headers, ResponseTimeHeader)));
      }
    }
    if thrown.Some? {
      var c := Catch(thrown.value);
      ex.Log(c[0].entry);
      ex.Next(c[1].error);
    }
  }

  /** The effect that answers the request. */
  function Answer(req: ChatRequest, s: Settings, net: Transport, now: string, codec: Codec): JeffEffect {
    var r := RouteEffects(req, s, net, now, codec);
    r[|r| - 1]
  }

  /** What the global error handler makes of the error the route passes on. */
  function AsErrorValue(h: Handled<AppError>, stack: string): JeffErrorHandler.ErrorValue {
    match h
    case Mapped(e) => JeffErrorHandler.AppErrorValue(e, stack)
    case Unchanged(t) => JeffErrorHandler.OtherError(t.message, stack)
  }

  /** An empty request reaches the error handler as an AppError and is answered 400. */
  lemma EmptyRequestIs400(req: ChatRequest, s: Settings, net: Transport, now: string, codec: Codec,
                          stack: string, info: JeffErrorHandler.RequestInfo, nodeEnv: Option<string>)
    requires Empty(req)
    ensures var a := Answer(req, s, net, now, codec);
            a.Next? && JeffErrorHandler.ErrorHandler(AsErrorValue(a.error, stack), info, nodeEnv, now).status == 400
  {
  }

  /**
   * The final status of a forwarded request that got no reply: 504 on a timeout, otherwise 500,
   * since the client's error is not an AppError.
   */
  lemma NoReplyStatus(req: ChatRequest, s: Settings, message: string, code: Option<string>, now: string, codec: Codec,
                      stack: string, info: JeffErrorHandler.RequestInfo, nodeEnv: Option<string>)
    requires !Empty(req)
    ensures var a := Answer(req, s, NoReply(message, code), now, codec);
            a.Next? &&
            JeffErrorHandler.ErrorHandler(AsErrorValue(a.error, stack), info, nodeEnv, now).status ==
              (if code == Some(TimeoutCode) then 504 else 500)
  {
  }

  /** A reply that is not 200 reaches the error handler with its own status, whether the client rejected it or not. */
  lemma ReplyStatusKept(req: ChatRequest, s: Settings, reply: UpstreamResponse, now: string, codec: Codec,
                        stack: string, info: JeffErrorHandler.RequestInfo, nodeEnv: Option<string>)
    requires !Empty(req) && reply.status != 200
    ensures var a := Answer(req, s, Replied(reply), now, codec);
            a.Next? && JeffErrorHandler.ErrorHandler(AsErrorValue(a.error, stack), info, nodeEnv, now).status == reply.status
  {
  }

  /** A 200 reply is answered with the extracted output, which the extraction's fallback turns into text. */
  lemma SuccessCarriesExtraction(req: ChatRequest, s: Settings, reply: UpstreamResponse, now: string, codec: Codec)
    requires !Empty(req) && reply.status == 200
    ensures Answer(req, s, Replied(reply), now, codec) ==
              Effect.Reply(ResultEnvelope(true, JeffExtractOutput.ExtractPipelineOutput(reply.data, codec).value, now,
                                          HeaderValue(reply.headers, ResponseTimeHeader)))
  {
  }
}
