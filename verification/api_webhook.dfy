/**
 * The `Webhook` helpers of the api relay (app/src/api/utils/webhook/webhook.ts): the outbound
 * body and options, the mapping of a failed call to an AppError, and the success body.
 */
module ApiWebhook {
  import opened Wrappers
  import opened JsValue
  import opened Http
  import ApiConfig
  import ApiPipelineOutput

  /** `buildPayload(message, data)`: a defined message is sent as it is, else the JSON text of `data`. */
  function BuildPayload(message: Option<Json>, data: Option<Json>, codec: Codec): (r: Option<Json>)
    ensures message.Some? ==> r == message
    ensures message.None? && data.Some? ==> r == Some(Str(codec.stringify(data.value)))
    ensures message.None? && data.None? ==> r.None?
  {
    if message.Some? then message
    else if data.Some? then Some(Str(codec.stringify(data.value)))
    else None
  }

  /** Message wins: once the message is defined, even as "", the data plays no part. */
  lemma MessageWins(message: Json, data1: Option<Json>, data2: Option<Json>, codec: Codec)
    ensures BuildPayload(Some(message), data1, codec) == BuildPayload(Some(message), data2, codec) == Some(message)
  {
  }

  /** `buildConfig()`: plain-text body, the authorization key, the token parameter and the configured timeout. */
  function BuildConfig(cfg: ApiConfig.Config): (r: RequestConfig)
    ensures r.contentType == "text/plain"
    ensures r.authorization == cfg.webhook.authorizationKey
    ensures r.params == [("token", cfg.webhook.token)]
    ensures r.timeout == cfg.webhook.timeout
    ensures forall status :: ValidateStatus(r, status) <==> status < 500
  {
    RequestConfig("text/plain", cfg.webhook.authorizationKey, [("token", cfg.webhook.token)], cfg.webhook.timeout, AcceptBelow)
  }

  /** `handleError(error)`: one error log, then timeout, then a reply's status, else the error itself. */
  function HandleError(error: TransportError): (r: Mapping<AppError>)
    ensures r.logs == [LogEntry(Error, HandleErrorLogMessage, ErrorContext(error))]
    ensures error.code == Some(TimeoutCode) ==> r.result == Mapped(AppError(TimeoutMessage, 504, None))
    ensures error.code != Some(TimeoutCode) && error.response.Some? ==>
              r.result == Mapped(AppError(FailedMessage, error.response.value.status, Some(error.response.value.data)))
    ensures error.code != Some(TimeoutCode) && error.response.None? ==> r.result == Unchanged(error)
  {
    var log := [LogEntry(Error, HandleErrorLogMessage, ErrorContext(error))];
    if error.code == Some(TimeoutCode) then Mapping(Mapped(AppError(TimeoutMessage, 504, None)), log)
    else if error.response.Some? then
      Mapping(Mapped(AppError(FailedMessage, error.response.value.status, Some(error.response.value.data))), log)
    else Mapping(Unchanged(error), log)
  }

  /**
   * A reply the configured client rejects is mapped to "Pipeline processing failed" with the
   * reply's own status, which is then always 500 or above.
   */
  lemma RejectedReplyMapsToServerError(cfg: ApiConfig.Config, reply: UpstreamResponse)
    requires Settle(BuildConfig(cfg), reply).Failed?
    ensures reply.status >= 500
    ensures HandleError(Settle(BuildConfig(cfg), reply).error).result ==
              Mapped(AppError(FailedMessage, reply.status, Some(reply.data)))
  {
  }

  /** `buildSuccessResponse(result, headers)`, with `now` the ISO timestamp of the moment. */
  function BuildSuccessResponse(result: Json, headers: Headers, now: string, codec: Codec): (r: ChatResponse)
    ensures r.success && r.timestamp == now
    ensures r.processingTime == HeaderValue(headers, ResponseTimeHeader)
    ensures result.Str? ==> r.message == Some(result)
    ensures !result.Str? && Prop(result, "answers") == Some(Arr([])) ==> r.message.None?
    ensures r.message.None? ==> Prop(result, "answers") == Some(Arr([]))
    ensures !result.Str? && ApiPipelineOutput.NonEmptyAnswers(result).Some? ==>
              r.message == Some(ApiPipelineOutput.NonEmptyAnswers(result).value[0])
    ensures !result.Str? && !(Prop(result, "answers").Some? && Prop(result, "answers").value.Arr?) ==>
              r.message == Some(Str(codec.stringify(result)))
  {
    var message :=
      if result.Str? then Some(result)
      else match Prop(result, "answers")
        case Some(Arr(answers)) => if |answers| > 0 then Some(answers[0]) else None
        case _ => Some(Str(codec.stringify(result)));
    ChatResponse(true, message, now, HeaderValue(headers, ResponseTimeHeader))
  }

  /** A body whose first answer is text becomes a reply carrying that text. */
  lemma FirstAnswerBecomesMessage(others: seq<Field>, text: string, rest: seq<Json>, headers: Headers, now: string, codec: Codec)
    ensures var body := Obj(others + [Field("answers", Arr([Str(text)] + rest))]);
            BuildSuccessResponse(ApiPipelineOutput.Extract(body), headers, now, codec).message == Some(Str(text))
  {
    ApiPipelineOutput.AnswersTakePriority(others, [Str(text)] + rest);
  }

  /**
   * An empty `answers` array without `data.objects` leaves the whole body as the extraction
   * result, whose `answers[0]` is undefined: the reply carries no message at all.
   */
  lemma EmptyAnswersGiveNoMessage(headers: Headers, now: string, codec: Codec)
    ensures var body := Obj([Field("answers", Arr([]))]);
            BuildSuccessResponse(ApiPipelineOutput.Extract(body), headers, now, codec).message.None?
  {
    var body := Obj([Field("answers", Arr([]))]);
    assert ApiPipelineOutput.Extract(body) == body;
  }
}
