/**
 * `ChatController.chat` of the older Express relay (app/src/components/chat/controller.ts): the
 * same validation and error mapping as the api copy, but the body is PUT as JSON, the log line
 * has no fingerprint flag, a text reply is not parsed, and the extraction has no `answers` rule.
 */
module AppChatController {
  import opened Wrappers
  import opened JsValue
  import opened Http
  import AppConfig
  import AppWebhook
  import PipelineOutput

  /** The translation key of the validation message; the translation table is not part of this model. */
  const MessageOrDataRequired := "errors.messageOrDataRequired"

  type AppCall = OutboundCall<JsonPayload>
  type AppEffect = Effect<AppCall, Handled<AppError>, ResultEnvelope>

  const Rejected: AppEffect := Effect.Next(Mapped(AppError(MessageOrDataRequired, 400, None)))

  /** The PUT to the configured base URL with the data-wins payload. */
  function Outbound(req: ChatRequest, cfg: AppConfig.Config): AppCall {
    OutboundCall(Put, cfg.webhook.baseUrl, AppWebhook.BuildPayload(req.message, req.data), AppWebhook.BuildConfig(cfg))
  }

  /** What the handler does once the call has settled. */
  function AfterCall(outcome: Outcome, now: string): seq<AppEffect> {
    match outcome
    case Failed(e) =>
      var m := AppWebhook.HandleError(e);
      Logged(m.logs) + [Effect.Next(m.result)]
    case Settled(resp) =>
      if resp.status != 200 then [Effect.Next(Mapped(AppError(NonOkMessage, resp.status, Some(resp.data))))]
      else [Effect.Reply(AppWebhook.BuildSuccessResponse(PipelineOutput.Extract(resp.data), resp.headers, now))]
  }

  /**
   * The effects of one request, in order: answered exactly once; an empty request is rejected
   * before anything is logged or sent; any other is logged and then forwarded.
   */
  function ChatEffects(req: ChatRequest, cfg: AppConfig.Config, net: Transport, now: string): (r: seq<AppEffect>)
    ensures AnsweredOnce(r)
    ensures Empty(req) <==> r == [Rejected]
    ensures !Empty(req) ==> |r| >= 3 && r[0] == Effect.Log(LogEntry(Info, ProcessingMessage, ProcessingContext(req))) &&
                            r[1] == Effect.Call(Outbound(req, cfg))
    ensures forall i :: 2 <= i < |r| ==> !r[i].Call?
  {
    if Empty(req) then [Rejected]
    else
      var call := Outbound(req, cfg);
      [Effect.Log(LogEntry(Info, ProcessingMessage, ProcessingContext(req))), Effect.Call(call)] + AfterCall(Callout(call.config, net), now)
  }

  /** The handler, performing its effects on the exchange `ex`. */
  method Chat(req: ChatRequest, cfg: AppConfig.Config, net: Transport, now: string,
              ex: Exchange<AppCall, Handled<AppError>, ResultEnvelope>)
    modifies ex
    ensures ex.effects == old(ex.effects) + ChatEffects(req, cfg, net, now)
  {
    if !TruthyOpt(req.message) && !TruthyOpt(req.data) {
      ex.Next(Mapped(AppError(MessageOrDataRequired, 400, None)));
      return;
    }
    ex.Log(LogEntry(Info, ProcessingMessage, ProcessingContext(req)));
    var call := Outbound(req, cfg);
    ex.Call(call);
    var outcome := Callout(call.config, net);
    if outcome.Failed? {
      var m := AppWebhook.HandleError(outcome.error);
      ex.LogEach(m.logs);
      ex.Next(m.result);
      return;
    }
    var resp := outcome.response;
    if resp.status != 200 {
      ex.Next(Mapped(AppError(NonOkMessage, resp.status, Some(resp.data))));
      return;
    }
    ex.Reply(AppWebhook.BuildSuccessResponse(PipelineOutput.Extract(resp.data), resp.headers, now));
  }

  /** The effect that answers the request. */
  function Answer(req: ChatRequest, cfg: AppConfig.Config, net: Transport, now: string): AppEffect {
    var r := ChatEffects(req, cfg, net, now);
    r[|r| - 1]
  }

  /** A success body is sent exactly for a non-empty request that got a 200 reply. */
  lemma ReplyOnlyOn200(req: ChatRequest, cfg: AppConfig.Config, net: Transport, now: string)
    ensures Answer(req, cfg, net, now).Reply? <==> !Empty(req) && net.Replied? && net.reply.status == 200
  {
  }

  /** A 200 reply is answered with the success envelope of the extraction of its body and its headers. */
  lemma SuccessCarriesExtraction(req: ChatRequest, cfg: AppConfig.Config, reply: UpstreamResponse, now: string)
    requires !Empty(req) && reply.status == 200
    ensures Answer(req, cfg, Replied(reply), now) ==
              Effect.Reply(AppWebhook.BuildSuccessResponse(PipelineOutput.Extract(reply.data), reply.headers, now))
  {
  }

  /**
   * A text reply is not parsed: with no `data.objects` to read, the text itself comes back as
   * the result.
   */
  lemma TextReplyPassedThrough(req: ChatRequest, cfg: AppConfig.Config, text: string, headers: Headers, now: string)
    requires !Empty(req)
    ensures Answer(req, cfg, Replied(UpstreamResponse(200, Str(text), headers)), now) ==
              Effect.Reply(ResultEnvelope(true, Str(text), now, HeaderValue(headers, ResponseTimeHeader)))
  {
  }

  /** A reply of 500 or above is rejected by the client and reported with its own status and body. */
  lemma ServerErrorReported(req: ChatRequest, cfg: AppConfig.Config, reply: UpstreamResponse, now: string)
    requires !Empty(req) && reply.status >= 500
    ensures Answer(req, cfg, Replied(reply), now) == Effect.Next(Mapped(AppError(FailedMessage, reply.status, Some(reply.data))))
  {
  }

  /** Any other reply that is not 200 is reported as "Pipeline returned an error" with its status and body. */
  lemma NonOkReported(req: ChatRequest, cfg: AppConfig.Config, reply: UpstreamResponse, now: string)
    requires !Empty(req) && reply.status < 500 && reply.status != 200
    ensures Answer(req, cfg, Replied(reply), now) == Effect.Next(Mapped(AppError(NonOkMessage, reply.status, Some(reply.data))))
  {
  }

  /** With no reply at all, a timeout becomes a 504 and anything else is passed on unchanged. */
  lemma NoReplyForwarded(req: ChatRequest, cfg: AppConfig.Config, message: string, code: Option<string>, now: string)
    requires !Empty(req)
    ensures var a := Answer(req, cfg, NoReply(message, code), now);
            if code == Some(TimeoutCode) then a == Effect.Next(Mapped(AppError(TimeoutMessage, 504, None)))
            else a == Effect.Next(Unchanged(TransportError(message, code, None)))
  {
  }

  /** A message-only request is sent as `{text: message}`. */
  lemma MessageOnlySentAsText(message: Json, cfg: AppConfig.Config, net: Transport, now: string)
    requires Truthy(message)
    ensures ChatEffects(ChatRequest(Some(message), None), cfg, net, now)[1] ==
              Effect.Call(OutboundCall(Put, cfg.webhook.baseUrl, TextObject(Some(message)), AppWebhook.BuildConfig(cfg)))
  {
  }
}
