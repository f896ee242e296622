/**
 * `ChatController.chat` of the api relay (app/src/api/components/chat/controller.ts): validate
 * the body, log, POST it to the pipeline, map failures to errors for `next`, parse a text reply,
 * extract the output and answer with the success body.
 */
module ApiChatController {
  import opened Wrappers
  import opened JsValue
  import opened Http
  import ApiConfig
  import ApiWebhook
  import ApiPipelineOutput

  /** The translation key of the validation message; the translation table is not part of this model. */
  const MessageOrDataRequired := "errors.messageOrDataRequired"

  type ApiCall = OutboundCall<Option<Json>>
  type ApiEffect = Effect<ApiCall, Handled<AppError>, ChatResponse>

  /** The validation error: 400, no details. */
  const Rejected: ApiEffect := Effect.Next(Mapped(AppError(MessageOrDataRequired, 400, None)))

  /** The info line written before the call; it also says whether the request carried a fingerprint. */
  function ProcessingLog(req: ChatRequest, hasFingerprint: bool): LogEntry {
    LogEntry(Info, ProcessingMessage, ProcessingContext(req) + [("hasFingerprint", Some(Bool(hasFingerprint)))])
  }

  /** The POST to the configured base URL with the built payload and options. */
  function Outbound(req: ChatRequest, cfg: ApiConfig.Config, codec: Codec): ApiCall {
    OutboundCall(Post, cfg.webhook.baseUrl, ApiWebhook.BuildPayload(req.message, req.data, codec), ApiWebhook.BuildConfig(cfg))
  }

  /** What the handler does once the call has settled. */
  function AfterCall(outcome: Outcome, now: string, codec: Codec): seq<ApiEffect> {
    match outcome
    case Failed(e) =>
      var m := ApiWebhook.HandleError(e);
      Logged(m.logs) + [Effect.Next(m.result)]
    case Settled(resp) =>
      if resp.status != 200 then [Effect.Next(Mapped(AppError(NonOkMessage, resp.status, Some(resp.data))))]
      else
        var parsed := if resp.data.Str? then codec.parse(resp.data.s) else Some(resp.data);
        if parsed.None? then
          [Effect.Log(LogEntry(Error, ParseFailureMessage, [("data", Some(resp.data))])),
           Effect.Next(Mapped(AppError(InvalidFormatMessage, 500, None)))]
        else
          [Effect.Reply(ApiWebhook.BuildSuccessResponse(ApiPipelineOutput.Extract(parsed.value), resp.headers, now, codec))]
  }

  /**
   * The effects of one request, in order. The request is answered exactly once; an empty request
   * is rejected before anything is logged or sent; any other is logged and then forwarded.
   */
  function ChatEffects(req: ChatRequest, hasFingerprint: bool, cfg: ApiConfig.Config, net: Transport, now: string, codec: Codec): (r: seq<ApiEffect>)
    ensures AnsweredOnce(r)
    ensures Empty(req) <==> r == [Rejected]
    ensures !Empty(req) ==> |r| >= 3 && r[0] == Effect.Log(ProcessingLog(req, hasFingerprint)) && r[1] == Effect.Call(Outbound(req, cfg, codec))
    ensures forall i :: 2 <= i < |r| ==> !r[i].Call?
  {
    if Empty(req) then [Rejected]
    else
      var call := Outbound(req, cfg, codec);
      [Effect.Log(ProcessingLog(req, hasFingerprint)), Effect.Call(call)] + AfterCall(Callout(call.config, net), now, codec)
  }

  /** The handler, performing its effects on the exchange `ex`. */
  method Chat(req: ChatRequest, hasFingerprint: bool, cfg: ApiConfig.Config, net: Transport, now: string, codec: Codec,
              ex: Exchange<ApiCall, Handled<AppError>, ChatResponse>)
    modifies ex
    ensures ex.effects == old(ex.effects) + ChatEffects(req, hasFingerprint, cfg, net, now, codec)
  {
    if !TruthyOpt(req.message) && !TruthyOpt(req.data) {
      ex.Next(Mapped(AppError(MessageOrDataRequired, 400, None)));
      return;
    }
    ex.Log(ProcessingLog(req, hasFingerprint));
    var call := Outbound(req, cfg, codec);
    ex.Call(call);
    var outcome := Callout(call.config, net);
    assert ChatEffects(req, hasFingerprint, cfg, net, now, codec) ==
           [Effect.Log(ProcessingLog(req, hasFingerprint)), Effect.Call(call)] + AfterCall(outcome, now, codec);
    if outcome.Failed? {
      var m := ApiWebhook.HandleError(outcome.error);
      ex.LogEach(m.logs);
      ex.Next(m.result);
      return;
    }
    var resp := outcome.response;
    if resp.status != 200 {
      ex.Next(Mapped(AppError(NonOkMessage, resp.status, Some(resp.data))));
      return;
    }
    var parsed := resp.data;
    if resp.data.Str? {
      var p := codec.parse(resp.data.s);
      if p.None? {
        ex.Log(LogEntry(Error, ParseFailureMessage, [("data", Some(resp.data))]));
        ex.Next(Mapped(AppError(InvalidFormatMessage, 500, None)));
        return;
      }
      parsed := p.value;
    }
    assert AfterCall(outcome, now, codec) ==
           [Effect.Reply(ApiWebhook.BuildSuccessResponse(ApiPipelineOutput.Extract(parsed), resp.headers, now, codec))];
    ex.Reply(ApiWebhook.BuildSuccessResponse(ApiPipelineOutput.Extract(parsed), resp.headers, now, codec));
  }

  /** The effect that answers the request. */
  function Answer(req: ChatRequest, hasFingerprint: bool, cfg: ApiConfig.Config, net: Transport, now: string, codec: Codec): ApiEffect {
    var r := ChatEffects(req, hasFingerprint, cfg, net, now, codec);
    r[|r| - 1]
  }

  /** A success body is sent only for a 200 reply whose body is JSON or parseable text. */
  lemma ReplyOnlyOn200(req: ChatRequest, hasFingerprint: bool, cfg: ApiConfig.Config, net: Transport, now: string, codec: Codec)
    ensures Answer(req, hasFingerprint, cfg, net, now, codec).Reply? <==>
              !Empty(req) && net.Replied? && net.reply.status == 200 &&
              (net.reply.data.Str? ==> codec.parse(net.reply.data.s).Some?)
  {
  }

  /**
   * A 200 reply whose body is JSON, or text that parses, is answered with the success body built
   * from the extraction of the parsed value and the reply's headers.
   */
  lemma SuccessCarriesExtraction(req: ChatRequest, hasFingerprint: bool, cfg: ApiConfig.Config, reply: UpstreamResponse,
                                 parsed: Json, now: string, codec: Codec)
    requires !Empty(req) && reply.status == 200
    requires (if reply.data.Str? then codec.parse(reply.data.s) else Some(reply.data)) == Some(parsed)
    ensures Answer(req, hasFingerprint, cfg, Replied(reply), now, codec) ==
              Effect.Reply(ApiWebhook.BuildSuccessResponse(ApiPipelineOutput.Extract(parsed), reply.headers, now, codec))
  {
  }

  /** With no reply at all, the error goes through `handleError`: a timeout becomes a 504, anything else is passed on unchanged. */
  lemma NoReplyForwarded(req: ChatRequest, hasFingerprint: bool, cfg: ApiConfig.Config, message: string, code: Option<string>, now: string, codec: Codec)
    requires !Empty(req)
    ensures var a := Answer(req, hasFingerprint, cfg, NoReply(message, code), now, codec);
            if code == Some(TimeoutCode) then a == Effect.Next(Mapped(AppError(TimeoutMessage, 504, None)))
            else a == Effect.Next(Unchanged(TransportError(message, code, None)))
  {
  }

  /** A reply of 500 or above is rejected by the client and reported with its own status and body. */
  lemma ServerErrorReported(req: ChatRequest, hasFingerprint: bool, cfg: ApiConfig.Config, reply: UpstreamResponse, now: string, codec: Codec)
    requires !Empty(req) && reply.status >= 500
    ensures Answer(req, hasFingerprint, cfg, Replied(reply), now, codec) ==
              Effect.Next(Mapped(AppError(FailedMessage, reply.status, Some(reply.data))))
  {
  }

  /**
   * Any other reply that is not 200 (a 4xx, a 2xx other than 200, or status 0) reaches the
   * handler and is reported as "Pipeline returned an error" with its status and body.
   */
  lemma NonOkReported(req: ChatRequest, hasFingerprint: bool, cfg: ApiConfig.Config, reply: UpstreamResponse, now: string, codec: Codec)
    requires !Empty(req) && reply.status < 500 && reply.status != 200
    ensures Answer(req, hasFingerprint, cfg, Replied(reply), now, codec) ==
              Effect.Next(Mapped(AppError(NonOkMessage, reply.status, Some(reply.data))))
  {
  }

  /** A 200 reply whose text does not parse is logged and answered with a 500, never with a success body. */
  lemma UnparseableReplyRejected(req: ChatRequest, hasFingerprint: bool, cfg: ApiConfig.Config, reply: UpstreamResponse, now: string, codec: Codec)
    requires !Empty(req) && reply.status == 200 && reply.data.Str? && codec.parse(reply.data.s).None?
    ensures ChatEffects(req, hasFingerprint, cfg, Replied(reply), now, codec)[2..] ==
              [Effect.Log(LogEntry(Error, ParseFailureMessage, [("data", Some(reply.data))])),
               Effect.Next(Mapped(AppError(InvalidFormatMessage, 500, None)))]
  {
  }

  /**
   * An empty message next to truthy data passes validation, yet the message wins in the payload:
   * the pipeline receives "" and never sees the data.
   */
  lemma EmptyMessageHidesData(data: Json, hasFingerprint: bool, cfg: ApiConfig.Config, net: Transport, now: string, codec: Codec)
    requires Truthy(data)
    ensures var r := ChatEffects(ChatRequest(Some(Str("")), Some(data)), hasFingerprint, cfg, net, now, codec);
            r[1].Call? && r[1].call.payload == Some(Str(""))
  {
  }
}
