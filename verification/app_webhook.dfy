/**
 * The `Webhook` helpers of the older Express relay (app/src/utils/webhook.ts): a data-wins JSON
 * body, the API key as both header and query parameter, and a success envelope that carries the
 * extraction result as it is.
 */
module AppWebhook {
  import opened Wrappers
  import opened JsValue
  import opened Http
  import AppConfig
  import ApiWebhook

  /** `buildPayload(message, data)`: `data || {text: message}`. */
  function BuildPayload(message: Option<Json>, data: Option<Json>): (r: JsonPayload)
    ensures TruthyOpt(data) ==> r == Data(data.value)
    ensures !TruthyOpt(data) ==> r == TextObject(message)
  {
    if TruthyOpt(data) then Data(data.value) else TextObject(message)
  }

  /** With neither message nor data the body is `{text: undefined}`. */
  lemma NeitherGivesUndefinedText()
    ensures BuildPayload(None, None) == TextObject(None)
  {
  }

  /** Data wins: a truthy data object is sent whatever the message. */
  lemma DataWins(message1: Option<Json>, message2: Option<Json>, data: Json)
    requires Truthy(data)
    ensures BuildPayload(message1, Some(data)) == BuildPayload(message2, Some(data)) == Data(data)
  {
  }

  /** `buildConfig()`: JSON body, the API key as Authorization header and as `apikey` parameter. */
  function BuildConfig(cfg: AppConfig.Config): (r: RequestConfig)
    ensures r.contentType == "application/json"
    ensures r.authorization == cfg.webhook.apiKey
    ensures r.params == [("apikey", cfg.webhook.apiKey)]
    ensures r.timeout == cfg.webhook.timeout
    ensures forall status :: ValidateStatus(r, status) <==> status < 500
  {
    RequestConfig("application/json", cfg.webhook.apiKey, [("apikey", cfg.webhook.apiKey)], cfg.webhook.timeout, AcceptBelow)
  }

  /** The status rule accepts 200, 404 and 499 and rejects 500 and 503. */
  lemma StatusRuleSamples(cfg: AppConfig.Config)
    ensures ValidateStatus(BuildConfig(cfg), 200) && ValidateStatus(BuildConfig(cfg), 404) && ValidateStatus(BuildConfig(cfg), 499)
    ensures !ValidateStatus(BuildConfig(cfg), 500) && !ValidateStatus(BuildConfig(cfg), 503)
  {
  }

  /** `handleError(error)`: one error log, then timeout, then a reply's status, else the error itself. */
  function HandleError(error: TransportError): (r: Mapping<AppError>)
    ensures r.logs == [LogEntry(Error, HandleErrorLogMessage, ErrorContext(error))]
    ensures error.code == Some(TimeoutCode) ==> r.result == Mapped(AppError(TimeoutMessage, 504, None))
    ensures error.code != Some(TimeoutCode) && error.response.Some? ==>
              r.result == Mapped(AppError(FailedMessage, error.response.value.status, Some(error.response.value.data)))
    ensures error.code != Some(TimeoutCode) && error.response.None? ==> r.result == Unchanged(error)
  {
    var log := [LogEntry(Error, HandleErrorLogMessage, ErrorContext(error))];
    if error.code == Some(TimeoutCode) then Mapping(Mapped(AppError(TimeoutMessage, 504, None)), log)
    else if error.response.Some? then
      Mapping(Mapped(AppError(FailedMessage, error.response.value.status, Some(error.response.value.data))), log)
    else Mapping(Unchanged(error), log)
  }

  /** `buildSuccessResponse(result, headers)`, with `now` the ISO timestamp of the moment. */
  function BuildSuccessResponse(result: Json, headers: Headers, now: string): (r: ResultEnvelope)
    ensures r.success && r.result == result && r.timestamp == now
    ensures r.processingTime.None? <==> ResponseTimeHeader !in headers
    ensures r.processingTime.Some? ==> r.processingTime.value == headers[ResponseTimeHeader]
  {
    ResultEnvelope(true, result, now, HeaderValue(headers, ResponseTimeHeader))
  }

  /** A reply the configured client rejects is mapped to "Pipeline processing failed" with its 5xx status. */
  lemma RejectedReplyMapsToServerError(cfg: AppConfig.Config, reply: UpstreamResponse)
    requires Settle(BuildConfig(cfg), reply).Failed?
    ensures reply.status >= 500
    ensures HandleError(Settle(BuildConfig(cfg), reply).error).result ==
              Mapped(AppError(FailedMessage, reply.status, Some(reply.data)))
  {
  }

  /** The error mapping is the api relay's, log line included. */
  lemma HandleErrorAgreesWithApiCopy(error: TransportError)
    ensures HandleError(error) == ApiWebhook.HandleError(error)
  {
  }

  /**
   * With both a message and a truthy data object the two relays send different things: this one
   * the data, the api relay the message text.
   */
  lemma PayloadRulesDiffer(message: Json, data: Json, codec: Codec)
    requires Truthy(data)
    ensures BuildPayload(Some(message), Some(data)) == Data(data)
    ensures ApiWebhook.BuildPayload(Some(message), Some(data), codec) == Some(message)
  {
  }
}
