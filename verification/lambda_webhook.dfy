/**
 * The `Webhook` helpers of the Lambda relay (lambda/src/utils/webhook/webhook.ts), which map a
 * failed call to a LambdaError (lambda/src/types/index.ts) instead of an AppError.
 */
module LambdaWebhook {
  import opened Wrappers
  import opened JsValue
  import opened Http
  import LambdaConfig
  import ApiWebhook
  import ApiPipelineOutput

  /** A LambdaError: message, HTTP status and optional details. */
  datatype LambdaError = LambdaError(message: string, statusCode: int, details: Option<Json>)

  /** `new LambdaError(message, statusCode, details)`: the status defaults to 500 when not given. */
  function NewLambdaError(message: string, statusCode: Option<int>, details: Option<Json>): (e: LambdaError)
    ensures e.statusCode == statusCode.GetOr(500)
    ensures e.message == message && e.details == details
  {
    LambdaError(message, statusCode.GetOr(500), details)
  }

  /** `buildPayload(message, data)`: a defined message is sent as it is, else the JSON text of `data`. */
  function BuildPayload(message: Option<Json>, data: Option<Json>, codec: Codec): (r: Option<Json>)
    ensures message.Some? ==> r == message
    ensures message.None? && data.Some? ==> r == Some(Str(codec.stringify(data.value)))
    ensures message.None? && data.None? ==> r.None?
  {
    if message.Some? then message
    else if data.Some? then Some(Str(codec.stringify(data.value)))
    else None
  }

  /** `buildConfig()`: plain-text body, the authorization key, the token parameter and the configured timeout. */
  function BuildConfig(cfg: LambdaConfig.Config): (r: RequestConfig)
    ensures r.contentType == "text/plain"
    ensures r.authorization == cfg.webhook.authorizationKey
    ensures r.params == [("token", cfg.webhook.token)]
    ensures r.timeout == cfg.webhook.timeout
    ensures forall status :: ValidateStatus(r, status) <==> status < 500
  {
    RequestConfig("text/plain", cfg.webhook.authorizationKey, [("token", cfg.webhook.token)], cfg.webhook.timeout, AcceptBelow)
  }

  /** `handleError(error)`: one error log, then timeout, then a reply's status, else the error itself. */
  function HandleError(error: TransportError): (r: Mapping<LambdaError>)
    ensures r.logs == [LogEntry(Error, HandleErrorLogMessage, ErrorContext(error))]
    ensures error.code == Some(TimeoutCode) ==> r.result == Mapped(LambdaError(TimeoutMessage, 504, None))
    ensures error.code != Some(TimeoutCode) && error.response.Some? ==>
              r.result == Mapped(LambdaError(FailedMessage, error.response.value.status, Some(error.response.value.data)))
    ensures error.code != Some(TimeoutCode) && error.response.None? ==> r.result == Unchanged(error)
  {
    var log := [LogEntry(Error, HandleErrorLogMessage, ErrorContext(error))];
    if error.code == Some(TimeoutCode) then Mapping(Mapped(NewLambdaError(TimeoutMessage, Some(504), None)), log)
    else if error.response.Some? then
      Mapping(Mapped(NewLambdaError(FailedMessage, Some(error.response.value.status), Some(error.response.value.data))), log)
    else Mapping(Unchanged(error), log)
  }

  /** `lambdaError.statusCode`: an error returned unchanged is not a LambdaError and has none. */
  function StatusCodeOf(h: Handled<LambdaError>): (r: Option<int>)
    ensures r.None? <==> h.Unchanged?
  {
    match h
    case Mapped(e) => Some(e.statusCode)
    case Unchanged(_) => None
  }

  /** `lambdaError.message`. */
  function MessageOf(h: Handled<LambdaError>): string {
    match h
    case Mapped(e) => e.message
    case Unchanged(raw) => raw.message
  }

  /** `lambdaError.details`: undefined on an error returned unchanged. */
  function DetailsOf(h: Handled<LambdaError>): Option<Json> {
    match h
    case Mapped(e) => e.details
    case Unchanged(_) => None
  }

  /** `buildSuccessResponse(result, headers)`, with `now` the ISO timestamp of the moment. */
  function BuildSuccessResponse(result: Json, headers: Headers, now: string, codec: Codec): (r: ChatResponse)
    ensures r.success && r.timestamp == now
    ensures r.processingTime == HeaderValue(headers, ResponseTimeHeader)
    ensures result.Str? ==> r.message == Some(result)
    ensures !result.Str? && Prop(result, "answers") == Some(Arr([])) ==> r.message.None?
    ensures r.message.None? ==> Prop(result, "answers") == Some(Arr([]))
    ensures !result.Str? && ApiPipelineOutput.NonEmptyAnswers(result).Some? ==>
              r.message == Some(ApiPipelineOutput.NonEmptyAnswers(result).value[0])
    ensures !result.Str? && !(Prop(result, "answers").Some? && Prop(result, "answers").value.Arr?) ==>
              r.message == Some(Str(codec.stringify(result)))
  {
    var message :=
      if result.Str? then Some(result)
      else match Prop(result, "answers")
        case Some(Arr(answers)) => if |answers| > 0 then Some(answers[0]) else None
        case _ => Some(Str(codec.stringify(result)));
    ChatResponse(true, message, now, HeaderValue(headers, ResponseTimeHeader))
  }

  /** A transport error without a timeout code and without a reply keeps no status code. */
  lemma PlainErrorHasNoStatus(message: string, code: Option<string>)
    requires code != Some(TimeoutCode)
    ensures StatusCodeOf(HandleError(TransportError(message, code, None)).result).None?
    ensures MessageOf(HandleError(TransportError(message, code, None)).result) == message
  {
  }

  /**
   * This copy and the api relay's copy send the same payload, write the same log, map an error to
   * the same message, status and details, and build the same success body.
   */
  lemma AgreesWithApiCopy(message: Option<Json>, data: Option<Json>, error: TransportError,
                          result: Json, headers: Headers, now: string, codec: Codec)
    ensures BuildPayload(message, data, codec) == ApiWebhook.BuildPayload(message, data, codec)
    ensures HandleError(error).logs == ApiWebhook.HandleError(error).logs
    ensures match ApiWebhook.HandleError(error).result
            case Mapped(e) => HandleError(error).result == Mapped(LambdaError(e.message, e.status, e.details))
            case Unchanged(raw) => HandleError(error).result == Unchanged(raw)
    ensures BuildSuccessResponse(result, headers, now, codec) == ApiWebhook.BuildSuccessResponse(result, headers, now, codec)
  {
  }
}
