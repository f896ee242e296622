# Chat relay core, modelled in Dafny

The repository is a chat front end for an AI document pipeline, together with several copies of the
relay that forwards a user's question to the pipeline's webhook and hands back its answer:

- an Express relay under `app/src/api` (text body, authorization key and token, `answers`-aware extraction);
- an older Express relay under `app/src` (JSON body, API key);
- an AWS Lambda handler (`lambda/src`);
- a standalone Express server (`jeffspeaksnode`).

On the client side, the front end keeps the conversation, its counters and a query budget in local
storage, keyed to a browser fingerprint.

This project models that core as Dafny values, functions, methods and lemmas.

**Shared modules.**

- `JsValue` models parsed JSON and JavaScript's truthiness, property lookup and `Object.keys` order.
- `JsText` models `includes`, `parseInt` and decimal/hex rendering.
- `Environment` models `process.env` reads with defaults and the `validate` filter.
- `Http` holds the upstream reply, the transport error, the request options and the client's
  `validateStatus` settlement. It also holds the Express exchange: a class whose methods record the
  effects a handler performs (log, outbound call, `next(error)`, `res.json(body)`), in order.

**Copies of the relay.**

- Each extraction copy, webhook helper and configuration module has its own module.
- Lemmas relate the copies to each other where they agree, and show where they differ.

**Request handlers.**

- Each Express handler has a pure function that lists its effects.
- Each also has a method on the exchange, proved to perform exactly those effects.
- Lemmas state what answers a request: success only on a 200 reply, which status each failure carries,
  and that a request is answered exactly once.

**Client side.**

- The conversation store's transitions are functions on the state. They are proved to keep the
  budget invariant.
- The fingerprint hash is a loop proved equal to a multiply-by-31 hash over UTF-16 code units.
- The cached `getFingerprint` is a class proved to generate at most once.

## Model

| member | source | states |
|---|---|---|
| ApiPipelineOutput.NonEmptyAnswers | app/src/api/utils/pipelineOutput/pipelineOutput.ts:20-22 | a result means `answers` is an array with at least one element, and these are its items |
| ApiPipelineOutput.TextOrObject | app/src/api/utils/pipelineOutput/pipelineOutput.ts:39 | the result is the object itself or its truthy `text`, and it is the `text` whenever that is truthy |
| ApiPipelineOutput.Extract | app/src/api/utils/pipelineOutput/pipelineOutput.ts:18-40 | a non-empty `answers` always gives its first item; otherwise, with a first object in `data.objects`, its `text` when that is truthy and else the object; with neither structure the body comes back |
| ApiPipelineOutput.AnswersTakePriority | app/src/api/utils/pipelineOutput/pipelineOutput.ts:19-22 | a non-empty `answers` array gives its first item whatever else the body holds |
| ApiPipelineOutput.WithoutStructureBodyIsReturned | app/src/api/utils/pipelineOutput/pipelineOutput.ts:25-33 | without answers and without a usable `data.objects` the body is returned unchanged |
| ApiPipelineOutput.DegenerateBodies | app/src/api/utils/pipelineOutput/pipelineOutput.ts:25-33 | null, `{}`, an empty `data.objects` and an empty `data` come back as they are |
| ApiPipelineOutput.FirstObjectDecides | app/src/api/utils/pipelineOutput/pipelineOutput.ts:29-39 | only the object under the first key of `data.objects` is read: its truthy text, else the object |
| ApiPipelineOutput.FalsyTextGivesObject | app/src/api/utils/pipelineOutput/pipelineOutput.ts:38-39 | a null or empty `text` is never returned; the whole first object is |
| PipelineOutput.Extract | app/src/utils/pipelineOutput/pipelineOutput.ts:16-33 | with a first object in `data.objects`, its `text` when that is truthy and else the object; without one, the body |
| PipelineOutput.AgreesWithApiCopy | app/src/utils/pipelineOutput/pipelineOutput.ts:16-33 | on every body without a non-empty `answers` array this copy and the api copy give the same value |
| PipelineOutput.FirstObjectDecides | app/src/utils/pipelineOutput/pipelineOutput.ts:22-32 | the object under the first key decides: its truthy text, or else the object |
| PipelineOutput.AnswersIgnored | app/src/utils/pipelineOutput/pipelineOutput.ts:16-33 | a body with only `answers` comes back whole here, where the api copy returns the first answer |
| ExtractOutput.ExtractPipelineOutput | app/src/utils/extractOutput.ts:15-42 | the value equals `PipelineOutput.Extract` on every body; the fallback warning is written exactly when there is no first object |
| ExtractOutput.FirstObjectDecides | app/src/utils/extractOutput.ts:18-31 | with a first object there is no warning, and the result is its truthy text or the object |
| JeffExtractOutput.FirstTruthyFieldSpec | jeffspeaksnode/src/utils/extractOutput.ts:18-34 | the ordered field search returns the earliest truthy field, and nothing exactly when no field is truthy |
| JeffExtractOutput.AsText | jeffspeaksnode/src/utils/extractOutput.ts:38-43 | the result is always a string: the pretty JSON of an object-typed value, and a string unchanged |
| JeffExtractOutput.ExtractPipelineOutput | jeffspeaksnode/src/utils/extractOutput.ts:7-55 | the result is text or one of the first object's content fields; the warning is written exactly when there is no first object, and then the body comes back as text |
| JeffExtractOutput.FieldPrecedence | jeffspeaksnode/src/utils/extractOutput.ts:18-43 | text, content, result, response, output are tried in order; with none truthy the object comes back as text |
| JeffExtractOutput.AnswersIgnored | jeffspeaksnode/src/utils/extractOutput.ts:10-49 | a body holding only `answers` comes back as its JSON text |
| JeffExtractOutput.NullBodyIsStringified | jeffspeaksnode/src/utils/extractOutput.ts:47-49 | a null body becomes the text of `null` with the warning, since `typeof null` is 'object' |
| ApiWebhook.BuildPayload | app/src/api/utils/webhook/webhook.ts:19-21 | a defined message is sent as it is, else the JSON text of the data |
| ApiWebhook.MessageWins | app/src/api/utils/webhook/webhook.ts:19-21 | once the message is defined, even as "", the data plays no part |
| ApiWebhook.BuildConfig | app/src/api/utils/webhook/webhook.ts:31-43 | text/plain, the authorization key, the token parameter, the configured timeout, and exactly the statuses below 500 accepted |
| ApiWebhook.HandleError | app/src/api/utils/webhook/webhook.ts:55-77 | one error log; a timeout code gives 504; a reply gives "Pipeline processing failed" with its status and data; anything else is returned unchanged |
| ApiWebhook.RejectedReplyMapsToServerError | app/src/api/utils/webhook/webhook.ts:41-74 | a reply the client rejects has status 500 or more and is mapped with that status and its body |
| ApiWebhook.BuildSuccessResponse | app/src/api/utils/webhook/webhook.ts:90-109 | success, the given timestamp and the response-time header; a string result is the message; otherwise a non-empty `answers` gives `answers[0]`, an empty one an undefined message (and only it does), and a result without an `answers` array its JSON text |
| ApiWebhook.FirstAnswerBecomesMessage | app/src/api/utils/webhook/webhook.ts:93-96 | a body whose first answer is text yields a reply carrying that text |
| ApiWebhook.EmptyAnswersGiveNoMessage | app/src/api/utils/webhook/webhook.ts:95-96 | an empty `answers` array leaves the reply without a message |
| LambdaWebhook.NewLambdaError | lambda/src/types/index.ts:95-105 | the status defaults to 500; message and details are kept |
| LambdaWebhook.BuildPayload | lambda/src/utils/webhook/webhook.ts:18-20 | a defined message is sent as it is, else the JSON text of the data |
| LambdaWebhook.BuildConfig | lambda/src/utils/webhook/webhook.ts:30-42 | text/plain, the authorization key, the token parameter, the timeout, and exactly the statuses below 500 accepted |
| LambdaWebhook.HandleError | lambda/src/utils/webhook/webhook.ts:54-76 | one error log; 504 on a timeout code; the reply's status and data on a reply; otherwise the error unchanged |
| LambdaWebhook.StatusCodeOf | lambda/src/handler.ts:82-87 | an error returned unchanged has no status code, and only that one |
| LambdaWebhook.BuildSuccessResponse | lambda/src/utils/webhook/webhook.ts:89-108 | success, timestamp and response-time header; a string result is the message; otherwise `answers[0]` for a non-empty `answers`, undefined for an empty one and only then, and the JSON text of a result without an `answers` array |
| LambdaWebhook.PlainErrorHasNoStatus | lambda/src/utils/webhook/webhook.ts:63-75 | an error with neither the timeout code nor a reply keeps its message and has no status code |
| LambdaWebhook.AgreesWithApiCopy | lambda/src/utils/webhook/webhook.ts:18-108 | payload, log, mapped message, status and details, and success body all equal the api relay's |
| AppWebhook.BuildPayload | app/src/utils/webhook.ts:19-21 | truthy data is sent as it is, otherwise `{text: message}` |
| AppWebhook.NeitherGivesUndefinedText | app/src/utils/webhook.ts:20 | with neither message nor data the body is `{text: undefined}` |
| AppWebhook.DataWins | app/src/utils/webhook.ts:20 | truthy data is sent whatever the message |
| AppWebhook.BuildConfig | app/src/utils/webhook.ts:31-43 | JSON body, the API key as header and as `apikey` parameter, the timeout, and exactly the statuses below 500 accepted |
| AppWebhook.StatusRuleSamples | app/src/utils/webhook.ts:41 | 200, 404 and 499 are accepted; 500 and 503 are rejected |
| AppWebhook.HandleError | app/src/utils/webhook.ts:55-77 | one error log; 504 on a timeout code; the reply's status and data on a reply; otherwise the error unchanged |
| AppWebhook.BuildSuccessResponse | app/src/utils/webhook.ts:90-99 | success with the result as it is, the timestamp, and the response-time header exactly when present |
| AppWebhook.RejectedReplyMapsToServerError | app/src/utils/webhook.ts:41-74 | a reply the client rejects has status 500 or more and is mapped with that status and its body |
| AppWebhook.HandleErrorAgreesWithApiCopy | app/src/utils/webhook.ts:55-77 | the error mapping and its log equal the api relay's |
| AppWebhook.PayloadRulesDiffer | app/src/utils/webhook.ts:19-21 | with a message and truthy data this relay sends the data, the api relay the message |
| Http.HeaderValue | app/src/api/utils/webhook/webhook.ts:106 | a header's value is defined exactly when the header is present |
| Http.Settle | app/src/api/utils/webhook/webhook.ts:41 | a reply resolves exactly when its status is 0 or accepted, and resolves as itself; a rejection carries the reply and no timeout code |
| Http.SettleRejectsOnlyServerErrors | app/src/api/utils/webhook/webhook.ts:41 | under the `status < 500` rule, a reply is rejected exactly when its status is 500 or more |
| Http.Exchange.Log | app/src/api/components/chat/controller.ts:39-43 | appends one log effect |
| Http.Exchange.Call | app/src/api/components/chat/controller.ts:48-54 | appends the outbound call |
| Http.Exchange.LogEach | app/src/api/utils/webhook/webhook.ts:58-62 | appends the log effects of the given entries, in order |
| Http.Exchange.Next | app/src/api/components/chat/controller.ts:58 | appends `next(error)` |
| Http.Exchange.Reply | app/src/api/components/chat/controller.ts:79 | appends `res.json(body)` |
| ApiChatController.ChatEffects | app/src/api/components/chat/controller.ts:32-80 | the request is answered exactly once; an empty request is rejected with 400 and nothing else; any other is logged, then sent, and no second call follows |
| ApiChatController.Chat | app/src/api/components/chat/controller.ts:32-80 | the handler performs exactly the effects of `ChatEffects`, in order |
| ApiChatController.ReplyOnlyOn200 | app/src/api/components/chat/controller.ts:61-79 | a success body is sent exactly for a non-empty request with a 200 reply whose body is JSON or parseable text |
| ApiChatController.SuccessCarriesExtraction | app/src/api/components/chat/controller.ts:66-79 | a 200 reply with a JSON or parseable text body is answered with the success body of the extraction of the parsed value and the reply headers |
| ApiChatController.NoReplyForwarded | app/src/api/components/chat/controller.ts:57-59 | without a reply, a timeout becomes a 504 and any other error is passed on unchanged |
| ApiChatController.ServerErrorReported | app/src/api/components/chat/controller.ts:57-59 | a reply of 500 or more is reported as "Pipeline processing failed" with its status and body |
| ApiChatController.NonOkReported | app/src/api/components/chat/controller.ts:61-63 | any other non-200 reply is reported as "Pipeline returned an error" with its status and body |
| ApiChatController.UnparseableReplyRejected | app/src/api/components/chat/controller.ts:65-74 | a 200 text reply that does not parse is logged and answered with a 500 |
| ApiChatController.EmptyMessageHidesData | app/src/api/components/chat/controller.ts:35-45 | an empty message next to truthy data passes validation, yet the pipeline receives "" |
| AppChatController.ChatEffects | app/src/components/chat/controller.ts:32-67 | answered exactly once; an empty request is rejected with 400 and nothing else; any other is logged, then sent with PUT, and no second call follows |
| AppChatController.Chat | app/src/components/chat/controller.ts:32-67 | the handler performs exactly the effects of `ChatEffects`, in order |
| AppChatController.ReplyOnlyOn200 | app/src/components/chat/controller.ts:59-66 | a success body is sent exactly for a non-empty request with a 200 reply |
| AppChatController.SuccessCarriesExtraction | app/src/components/chat/controller.ts:59-66 | a 200 reply is answered with the success envelope of the extraction of its body and the reply headers |
| AppChatController.TextReplyPassedThrough | app/src/components/chat/controller.ts:63-66 | a 200 text reply is not parsed: it is the result as it came |
| AppChatController.ServerErrorReported | app/src/components/chat/controller.ts:55-57 | a reply of 500 or more is reported as "Pipeline processing failed" with its status and body |
| AppChatController.NonOkReported | app/src/components/chat/controller.ts:59-61 | any other non-200 reply is reported as "Pipeline returned an error" |
| AppChatController.NoReplyForwarded | app/src/components/chat/controller.ts:55-57 | without a reply, a timeout becomes a 504 and any other error is passed on unchanged |
| AppChatController.MessageOnlySentAsText | app/src/components/chat/controller.ts:35-44 | a message without data is sent as `{text: message}` |
| LambdaHandler.ErrorBodyFields | lambda/src/handler.ts:156-161 | the error body reads back `error: true`, the message, and the details exactly when defined |
| LambdaHandler.BuildErrorResponse | lambda/src/handler.ts:156-173 | the status defaults to 500; JSON and CORS headers; the body is the error object's JSON text |
| LambdaHandler.BuildSuccessResponse | lambda/src/handler.ts:131-142 | 200 with JSON and CORS headers and the chat response's JSON text |
| LambdaHandler.ReadBody | lambda/src/handler.ts:42-59 | without a text body the event's own message and data are the request |
| LambdaHandler.Handler | lambda/src/handler.ts:24-119 | every response carries the CORS headers; the headers are the bare CORS set exactly for a preflight |
| LambdaHandler.PreflightFirst | lambda/src/handler.ts:27-37 | a preflight gets 200, the CORS headers and an empty body, before any check or log |
| LambdaHandler.InvalidConfigurationCaught | lambda/src/handler.ts:39-117 | a configuration that fails `validate` is caught: 500 with the thrown message and no call |
| LambdaHandler.CallOnlyForValidRequests | lambda/src/handler.ts:39-79 | the call is made exactly when the request is not a preflight, the configuration validates and the body is read and non-empty |
| LambdaHandler.TextBodyWins | lambda/src/handler.ts:44-59 | a text body is parsed and takes precedence over the event's own fields |
| LambdaHandler.PlainErrorBecomes500 | lambda/src/handler.ts:81-88 | an error without reply or timeout code is answered 500 with its own message and no details |
| LambdaHandler.OkOnlyOnSuccess | lambda/src/handler.ts:27-112 | status 200 exactly for a preflight or for a called 200 reply whose body could be read |
| LambdaHandler.SuccessCarriesExtraction | lambda/src/handler.ts:98-112 | a 200 reply with a JSON or parseable text body is answered 200 with the chat response built from the extraction of the parsed value and the reply headers |
| LambdaHandler.UnparseableBodyIs400 | lambda/src/handler.ts:44-50 | a text body that is not JSON is logged and answered 400 "Invalid request body format", without a call |
| LambdaHandler.EmptyRequestIs400 | lambda/src/handler.ts:59-63 | a request with neither a truthy message nor truthy data is answered 400 "Either message or data is required", without log or call |
| LambdaHandler.NullBodyCaught | lambda/src/handler.ts:46-59 | a text body that parses to `null` fails the destructuring and the catch answers 500 |
| LambdaHandler.NonOkReplyReturned | lambda/src/handler.ts:90-96 | an accepted reply other than 200 is answered with its own status, "Pipeline returned an error" and the reply body as details |
| LambdaHandler.ServerErrorReplyKeepsStatus | lambda/src/handler.ts:81-88 | a reply of 500 or above goes through `handleError` and is answered with its own status, "Pipeline processing failed" and the reply body |
| LambdaHandler.TimeoutIs504 | lambda/src/handler.ts:81-88 | a timed-out call is answered 504 with the timeout message and no details |
| LambdaHandler.UnparseableReplyIs500 | lambda/src/handler.ts:98-106 | a 200 text reply that is not JSON is logged and answered 500 "Invalid response format from webhook" |
| JeffErrorHandler.NewAppError | jeffspeaksnode/src/middleware/errorHandler.ts:5-15 | the status defaults to 500; message and details are kept |
| JeffErrorHandler.StatusOf | jeffspeaksnode/src/middleware/errorHandler.ts:24-25 | an AppError keeps its status; any other error is 500 |
| JeffErrorHandler.ErrorHandler | jeffspeaksnode/src/middleware/errorHandler.ts:18-50 | an AppError keeps its status, anything else is 500; the error log carries the url and method; the body starts with `error: true`, and outside development carries the generic message and no stack |
| JeffErrorHandler.BodyShape | jeffspeaksnode/src/middleware/errorHandler.ts:37-47 | the body has `error: true`; the message is the error's only in development; details only for an AppError with truthy details; the stack only in development |
| JeffErrorHandler.ProductionHidesInternals | jeffspeaksnode/src/middleware/errorHandler.ts:27-47 | outside development neither the log nor the body carries the stack, and the body carries the generic message |
| JeffErrorHandler.OtherErrorsAre500 | jeffspeaksnode/src/middleware/errorHandler.ts:24-25 | an error that is not an AppError is answered 500 without details |
| JeffErrorHandler.AppErrorKeepsStatus | jeffspeaksnode/src/middleware/errorHandler.ts:24-49 | an AppError is answered with its own status |
| JeffErrorHandler.NotFoundHandler | jeffspeaksnode/src/middleware/errorHandler.ts:53-59 | the status is 404 |
| JeffErrorHandler.NotFoundBody | jeffspeaksnode/src/middleware/errorHandler.ts:53-59 | the body reads back `error: true`, "Endpoint not found" and the request path |
| JeffServer.WebhookConfig | jeffspeaksnode/src/server.ts:106-116 | the API key as header and `apikey` parameter, and exactly the statuses below 500 accepted |
| JeffServer.Catch | jeffspeaksnode/src/server.ts:142-164 | every thrown error is logged and passed to `next`; the route's own AppErrors pass through unchanged |
| JeffServer.RouteEffects | jeffspeaksnode/src/server.ts:88-165 | answered exactly once; an empty request goes through the catch as a 400; any other is logged, then sent |
| JeffServer.Chat | jeffspeaksnode/src/server.ts:88-165 | the route performs exactly the effects of `RouteEffects`, in order |
| JeffServer.EmptyRequestIs400 | jeffspeaksnode/src/server.ts:93-95 | an empty request reaches the error handler as an AppError and is answered 400 |
| JeffServer.NoReplyStatus | jeffspeaksnode/src/server.ts:142-163 | without a reply, the final status is 504 on a timeout and 500 otherwise |
| JeffServer.ReplyStatusKept | jeffspeaksnode/src/server.ts:125-161 | a non-200 reply reaches the error handler with its own status, rejected by the client or not |
| JeffServer.SuccessCarriesExtraction | jeffspeaksnode/src/server.ts:130-140 | a 200 reply is answered with the extracted output, the timestamp and the response-time header |
| ApiConfig.Load | app/src/api/config/index.ts:6-25 | each value is the environment's when set and non-empty, else its default; the timeout is five minutes |
| ApiConfig.Validate | app/src/api/config/index.ts:28-39 | success implies the base URL, authorization key and token are non-empty |
| ApiConfig.Defaults | app/src/api/config/index.ts:7-24 | an empty environment gives port 3001, development, the local frontend, empty webhook settings, 900000 ms and 100 requests |
| ApiConfig.MissingListedInOrder | app/src/api/config/index.ts:29-30 | the missing list holds exactly the unset required names, in their order |
| ApiConfig.MissingReported | app/src/api/config/index.ts:32-34 | with some names unset, the thrown message lists them |
| ApiConfig.ValidateSucceedsIff | app/src/api/config/index.ts:28-39 | in an unchanged environment validation succeeds exactly when the three required variables are set |
| ApiConfig.IncompleteUnreachable | app/src/api/config/index.ts:36-38 | in an unchanged environment "Webhook configuration is incomplete" is never thrown |
| ApiConfig.IncompleteAfterLateChange | app/src/api/config/index.ts:36-38 | it is thrown when the variables were set only after loading |
| ApiConfig.ApiKeyNotRequired | app/src/api/config/index.ts:16-30 | WEBHOOK_API_KEY is read but does not affect validation |
| AppConfig.Load | app/src/config/index.ts:6-24 | each value is the environment's when set and non-empty, else its default; the timeout is five minutes |
| AppConfig.Validate | app/src/config/index.ts:26-37 | success implies the base URL and API key are non-empty |
| AppConfig.Defaults | app/src/config/index.ts:7-23 | an empty environment gives port 3001, development, the local frontend, empty webhook settings, 900000 ms and 100 requests |
| AppConfig.MissingListedInOrder | app/src/config/index.ts:27-28 | the missing list holds exactly the unset required names, in their order |
| AppConfig.MissingReported | app/src/config/index.ts:30-32 | with some names unset, the thrown message lists them |
| AppConfig.ValidateSucceedsIff | app/src/config/index.ts:26-37 | in an unchanged environment validation succeeds exactly when both required variables are set |
| AppConfig.IncompleteUnreachable | app/src/config/index.ts:34-36 | in an unchanged environment the incomplete-configuration error is never thrown |
| LambdaConfig.Load | lambda/src/config/index.ts:3-10 | each webhook value is the environment's when set, else ""; the timeout is five minutes |
| LambdaConfig.Validate | lambda/src/config/index.ts:13-24 | success implies the base URL, authorization key and token are non-empty |
| LambdaConfig.Defaults | lambda/src/config/index.ts:4-10 | an empty environment gives empty webhook settings and five minutes |
| LambdaConfig.MissingListedInOrder | lambda/src/config/index.ts:14-15 | the missing list holds exactly the unset required names, in their order |
| LambdaConfig.MissingReported | lambda/src/config/index.ts:17-19 | with some names unset, the thrown message lists them |
| LambdaConfig.ValidateSucceedsIff | lambda/src/config/index.ts:13-24 | in an unchanged environment validation succeeds exactly when the three required variables are set |
| LambdaConfig.IncompleteUnreachable | lambda/src/config/index.ts:21-23 | in an unchanged environment the incomplete-configuration error is never thrown |
| LambdaConfig.ApiKeyNotRequired | lambda/src/config/index.ts:6-15 | WEBHOOK_API_KEY is read but does not affect validation |
| Environment.Or | app/src/api/config/index.ts:7-24 | the variable's value when set and non-empty, else the fallback |
| Environment.MissingNames | app/src/api/config/index.ts:29-30 | a name is listed exactly when it is required and unset, and the list is no longer than the required one |
| Environment.NothingMissingIffAllSet | app/src/api/config/index.ts:30-32 | nothing is missing exactly when every required name is set |
| Environment.MissingOfTwo | app/src/config/index.ts:27-28 | filtering two names keeps the unset ones in order |
| Environment.MissingOfThree | app/src/api/config/index.ts:29-30 | filtering three names keeps the unset ones in order |
| Environment.MessagesDiffer | app/src/api/config/index.ts:33-37 | the missing-variables message never equals the incomplete-configuration message |
| Environment.DefaultPortParses | app/src/api/config/index.ts:7 | `parseInt('3001', 10)` is 3001 |
| Environment.DefaultWindowParses | app/src/api/config/index.ts:23 | `parseInt('900000', 10)` is 900000 |
| Environment.DefaultMaxParses | app/src/api/config/index.ts:24 | `parseInt('100', 10)` is 100 |
| JsText.ParseInt10 | app/src/api/config/index.ts:7 | `parseInt(s, 10)` is NaN (None) exactly when no digit follows the leading white space and optional sign |
| JsText.ParseInt10OfDecimal | app/src/api/config/index.ts:7 | the decimal numeral of a natural number parses back to it |
| JsText.ParseInt10OfSigned | app/src/api/config/index.ts:7 | after any JavaScript white space, a minus numeral parses to its negation, a plus numeral and a bare numeral to their value |
| JsText.NatToHex | client/src/services/fingerprint.ts:144 | `toString(16)`: lower-case hexadecimal digits whose value is the number, without a leading zero |
| JsValue.FirstKey | app/src/api/utils/pipelineOutput/pipelineOutput.ts:29-35 | `Object.keys(o)[0]`: the least array-index key if any, else the first key inserted |
| JsValue.FirstObjectOfObjectsBody | app/src/api/utils/pipelineOutput/pipelineOutput.ts:25-36 | in `{data: {objects: {k: v, ...}}}` with no index keys, the first object is `v` |
| AppCors.AllowOrigin | app/src/app.ts:33-59 | an origin is allowed exactly when it is absent or empty, equals the frontend, is local in development, or is local in production with a local frontend; otherwise "Not allowed by CORS" |
| AppCors.ProductionLocalNeedsLocalFrontend | app/src/app.ts:48-56 | in production a local origin other than the frontend is allowed exactly when the frontend is local |
| AppCors.OtherEnvironmentsExactOnly | app/src/app.ts:33-58 | under any other NODE_ENV only an absent origin or the frontend itself passes |
| AppCors.NoOriginAlwaysAllowed | app/src/app.ts:35 | a missing or empty origin is allowed whatever the configuration |
| AppCors.RateLimitKey | app/src/app.ts:86-93 | never empty; a truthy fingerprint gives "fingerprint:" and the id; otherwise a truthy IP, then a truthy socket address, then "unknown" |
| AppCors.FingerprintsCountedApart | app/src/app.ts:88-90 | different fingerprints give different keys, even behind one address |
| AppCors.KeyIgnoresAddressWithFingerprint | app/src/app.ts:88-90 | a fingerprinted client keeps its key when its address changes |
| ServerCors.AllowOrigin | app/src/server.ts:28-44 | an origin is allowed exactly when it is absent or empty, equals the frontend, or is local in development |
| ServerCors.StricterThanApp | app/src/server.ts:28-44 | whatever this server allows the api app allows; they differ exactly on local origins in production with a local frontend |
| ServerCors.ProductionRejectsLocal | app/src/server.ts:37-43 | in production every origin other than the frontend is rejected |
| ConversationStorage.Spend | client/src/services/conversationStorage.ts:168 | one query spent, never below zero |
| ConversationStorage.NewConversation | client/src/services/conversationStorage.ts:65-83 | no messages, zero counters, the default limit of 25 as the full budget, and the invariant holds |
| ConversationStorage.LoadConversation | client/src/services/conversationStorage.ts:93-121 | the result is the fresh conversation unless a stored state decodes |
| ConversationStorage.ResumeSameDevice | client/src/services/conversationStorage.ts:102-116 | a stored state of this device is resumed with one more refresh and the new activity time, nothing else changed |
| ConversationStorage.OtherDeviceStartsOver | client/src/services/conversationStorage.ts:105-107 | a state saved under another fingerprint is replaced by a fresh one |
| ConversationStorage.LoadKeepsConsistent | client/src/services/conversationStorage.ts:93-121 | loading keeps the budget invariant |
| ConversationStorage.AddUserMessage | client/src/services/conversationStorage.ts:152-173 | one user message appended, one more query counted, one spent from the budget, nothing else changed |
| ConversationStorage.AddAssistantMessage | client/src/services/conversationStorage.ts:186-205 | one assistant message appended; counters and budget unchanged |
| ConversationStorage.FindIndex | client/src/services/conversationStorage.ts:220 | the index of the first message with the id, and none exactly when no message has it |
| ConversationStorage.EditMessage | client/src/services/conversationStorage.ts:219-249 | an unknown id leaves the state as it is; otherwise only that message changes, one edit is counted and one query spent |
| ConversationStorage.FirstDuplicateEdited | client/src/services/conversationStorage.ts:220-232 | with duplicated ids only the first message is edited |
| ConversationStorage.TrackRegeneration | client/src/services/conversationStorage.ts:261-274 | messages untouched, one more regeneration, one query spent |
| ConversationStorage.TransitionsKeepConsistent | client/src/services/conversationStorage.ts:152-274 | every transition keeps the budget equal to the limit less the queries used, floored at 0 |
| ConversationStorage.LimitReachedIffBudgetUsed | client/src/services/conversationStorage.ts:337-339 | on a consistent state the limit is reached exactly when the queries used reach it |
| ConversationStorage.HasReachedQueryLimit | client/src/services/conversationStorage.ts:337-339 | on a consistent state, reached exactly when the queries used reach the limit |
| ConversationStorage.TwentyFiveQueries | client/src/services/conversationStorage.ts:31 | with the default limit and only user messages, the limit is reached at the 25th query and not before |
| ConversationStorage.CountRole | client/src/services/conversationStorage.ts:311-312 | a role's count never exceeds the number of messages |
| ConversationStorage.RolesPartition | client/src/services/conversationStorage.ts:311-312 | user and assistant counts add up to the number of messages |
| ConversationStorage.ConversationStats | client/src/services/conversationStorage.ts:300-325 | the message count is the number of messages and the two role counts add up to it; budget and limit copied |
| ConversationStorage.CountAppend | client/src/services/conversationStorage.ts:311 | appending a message adds one to its own role's count only |
| ConversationStorage.UserMessagesCounted | client/src/services/conversationStorage.ts:152-205 | adding messages keeps the user count equal to the queries counted |
| Fingerprint.GroupEnd | client/src/services/fingerprint.ts:34 | a capture group matched at a position ends after it and within the string |
| Fingerprint.Search | client/src/services/fingerprint.ts:34 | the group of the leftmost match, and none only when no position matches |
| Fingerprint.ParseBrowserInfo | client/src/services/fingerprint.ts:28-55 | Chrome, Firefox, Safari, Edge and Internet Explorer each exactly when its marker is present and no earlier one is; Unknown exactly when no marker is; each version is the leftmost match of the family's pattern, else "Unknown" |
| Fingerprint.ChromeWithoutVersion | client/src/services/fingerprint.ts:32-35 | the family is recognised even when its version pattern fails |
| Fingerprint.ChromeVersion | client/src/services/fingerprint.ts:34-35 | the version is the digits around the dot after the marker |
| Fingerprint.WindowsVersionName | client/src/services/fingerprint.ts:76-84 | an NT version outside the table is returned as it is |
| Fingerprint.WindowsTable | client/src/services/fingerprint.ts:76-84 | the six table entries, and an unlisted version unchanged |
| Fingerprint.ParseOSInfo | client/src/services/fingerprint.ts:67-103 | Windows, macOS, Linux, Android and iOS each exactly when its marker is present and no earlier one is, Unknown exactly when none is; the Windows version is the table entry for the matched NT version, macOS and iOS the match with `_` turned into `.`, Android the match, else "Unknown" |
| Fingerprint.Dotted | client/src/services/fingerprint.ts:89-99 | a matched version keeps its length and characters with every `_` turned into `.`; no match gives "Unknown" |
| Fingerprint.AndroidIsLinux | client/src/services/fingerprint.ts:90-93 | an Android user agent naming Linux is classed Linux |
| Fingerprint.IPhoneIsMacOS | client/src/services/fingerprint.ts:86-96 | an iPhone user agent saying "Mac OS X" is classed macOS |
| Fingerprint.DeviceTypeOf | client/src/services/fingerprint.ts:151-161 | Mobile or Desktop |
| Fingerprint.TabletIff | client/src/services/fingerprint.ts:151-160 | the device is Tablet exactly for tablet user agents, and Desktop exactly when the device type is |
| Fingerprint.IsMobile | client/src/services/fingerprint.ts:151 | any of Mobi, Android, iPhone, iPad or iPod in the user agent makes it mobile, whatever the case |
| Fingerprint.IsTablet | client/src/services/fingerprint.ts:152 | a tablet is also mobile; "Mobile" rules a tablet out; iPad or Android without any-case "mobile" is a tablet |
| Fingerprint.DeviceOf | client/src/services/fingerprint.ts:160 | Tablet exactly for tablets, Mobile for other mobile user agents, Desktop exactly for the rest |
| Fingerprint.CpuText | client/src/services/fingerprint.ts:163 | "Unknown" exactly when the core count is missing or 0; a positive count is its decimal numeral followed by " cores" |
| Fingerprint.Components | client/src/services/fingerprint.ts:118-133 | fourteen components, the user agent first |
| Fingerprint.ToInt32 | client/src/services/fingerprint.ts:141 | a 32-bit signed value congruent to the input modulo 2^32 |
| Fingerprint.ToInt32Congruent | client/src/services/fingerprint.ts:140-141 | values congruent modulo 2^32 have the same ToInt32 |
| Fingerprint.UnitsOf | client/src/services/fingerprint.ts:139 | one or two UTF-16 code units, each below 0x10000 |
| Fingerprint.CodeUnits | client/src/services/fingerprint.ts:138-139 | at least one code unit per character, each below 0x10000 |
| Fingerprint.HashOf | client/src/services/fingerprint.ts:137-142 | the hash is a 32-bit signed value |
| Fingerprint.ShiftStepIsTimes31 | client/src/services/fingerprint.ts:140-141 | the shift-subtract-add step followed by `hash & hash` is one multiply-by-31 step |
| Fingerprint.HashString | client/src/services/fingerprint.ts:137-142 | the loop computes the multiply-by-31 hash of the string's code units |
| Fingerprint.HashOfOneUnit | client/src/services/fingerprint.ts:137-142 | the hash of one code unit is the unit |
| Fingerprint.FingerprintText | client/src/services/fingerprint.ts:144 | the lower-case hexadecimal numeral of the absolute value of the hash: one to eight digits, value \|h\|, no leading zero |
| Fingerprint.SignLost | client/src/services/fingerprint.ts:144 | a hash and its negation give the same fingerprint |
| Fingerprint.FingerprintOf | client/src/services/fingerprint.ts:113-170 | one to eight hex digits; device type Mobile or Desktop; Tablet exactly for tablets; vendor Unknown; the user agent kept |
| Fingerprint.GenerateFingerprint | client/src/services/fingerprint.ts:113-170 | the method with its hash loop returns `FingerprintOf` of the browser values |
| Fingerprint.FingerprintCache.constructor | client/src/services/fingerprint.ts:180 | the cache starts empty |
| Fingerprint.FingerprintCache.GetFingerprint | client/src/services/fingerprint.ts:182-187 | the first call generates and caches; later calls return the cached value without generating again |
| Fingerprint.TwoCalls | client/src/services/fingerprint.ts:182-187 | two calls on one cache return the same fingerprint, computed from the first call's browser values |

## Left out

- Network, clock and random ids are inputs, not effects.
  - The network is a `Transport` parameter: a reply, or no reply with the client's message and code.
  - `new Date().toISOString()` is a `now` string.
  - Message and conversation ids are parameters, and the browser's values are a `BrowserContext` record.
- How the HTTP client settles a reply is modelled in `Http.Settle`, from the documented behaviour of `validateStatus`. The client library itself is not part of this model. Status 0 resolves, as the client does.
- `JSON.parse`, `JSON.stringify` and the pretty printer are fields of a `Codec` record passed in, not implemented.
  - Duplicate keys in parsed text are represented by the last entry winning.
  - `LambdaHandler.BuildErrorResponse`, `LambdaHandler.BuildSuccessResponse`: state the object given to `JSON.stringify`, not the text it produces.
- Logger and console output are represented as `LogEntry` values (level, message, context); formatting and transports are left out.
  - The Lambda catch block logs the error object; the model records its message.
- `localStorage` reads and writes: `saveConversation` is not modelled. Each transition returns the state it would save. `LoadConversation` takes the stored text and a decoder, and its `catch` is the decoder returning None.
- `clearConversation` (client/src/services/conversationStorage.ts:284-288) is `createNewConversation` followed by a save; `ConversationStorage.NewConversation` stands for it.
- Express wiring is not modelled: helmet, body parsing, `express-rate-limit`'s counting and window, route registration, and the fingerprint middleware that sets `req.fingerprintId`. Only the CORS origin callbacks and the rate-limit key function are.
- The older Express controller imports `PipelineOutput` and `Webhook` through `app/src/utils/index.ts`. That barrel re-exports the default export of `./extractOutput`, which has none. The model uses `PipelineOutput.Extract`. `ExtractOutput.ExtractPipelineOutput` is proved to give the same value on every body, so the choice does not change any result.
- The catch branches of both `extractPipelineOutput` copies are unreachable on parsed JSON, since property reads on it cannot throw. They are left out.
- Files that are not part of this model:
  - the Lambda copy of `PipelineOutput`, so `LambdaHandler.Handler` takes `extract` as a parameter;
  - the standalone server's configuration module, so `JeffServer` takes a `Settings` value;
  - the api relay's `AppError` class, represented by `Http.AppError`;
  - the translation table, so `ApiChatController` and `AppChatController` use the key `errors.messageOrDataRequired` as the message.
- Regular expressions in the fingerprint parser are modelled as scanners for the patterns used (a marker, then digit groups), not as a general regex engine. The case-insensitive device tests use ASCII lower-casing.
- `hash` is an unbounded integer with an explicit ToInt32, not a 32-bit machine type. `charCodeAt` is modelled by UTF-16 code units, with a surrogate pair for characters above the Basic Multilingual Plane.
- The `Date`-based time-zone offset and `Intl` time zone are fields of `BrowserContext`.
- `Fingerprint.HashOf`: its contract states only the 32-bit range. The value is tied to the source loop by `Fingerprint.HashString`.
