/**
 * The CORS `origin` callback of the older Express server (app/src/server.ts): the same rules as
 * the api app without its production branch, so local origins are admitted only in development.
 */
module ServerCors {
  import opened Wrappers
  import opened JsText
  import AppCors

  /** The `origin` callback, given the configured frontend URL and NODE_ENV. */
  function AllowOrigin(origin: Option<string>, frontendUrl: string, nodeEnv: string): (d: AppCors.CorsDecision)
    ensures d.Reject? ==> d.message == AppCors.NotAllowedMessage
    ensures d == AppCors.Allow <==>
              || AppCors.NoOrigin(origin)
              || origin.value == frontendUrl
              || (nodeEnv == "development" && AppCors.IsLocal(origin.value))
  {
    if origin.None? || origin.value == "" then AppCors.Allow
    else if origin.value == frontendUrl then AppCors.Allow
    else if nodeEnv == "development" && (Includes(origin.value, "localhost") || Includes(origin.value, "127.0.0.1")) then AppCors.Allow
    else AppCors.Reject(AppCors.NotAllowedMessage)
  }

  /**
   * Every origin this server admits, the api app admits as well; the two differ exactly on local
   * origins in production with a local frontend.
   */
  lemma StricterThanApp(origin: Option<string>, frontendUrl: string, nodeEnv: string)
    ensures AllowOrigin(origin, frontendUrl, nodeEnv) == AppCors.Allow ==> AppCors.AllowOrigin(origin, frontendUrl, nodeEnv) == AppCors.Allow
    ensures AllowOrigin(origin, frontendUrl, nodeEnv) != AppCors.AllowOrigin(origin, frontendUrl, nodeEnv) <==>
              !AppCors.NoOrigin(origin) && origin.value != frontendUrl && nodeEnv == "production" &&
              AppCors.IsLocal(frontendUrl) && AppCors.IsLocal(origin.value)
  {
  }

  /** In production a local preview origin is rejected here even when the frontend is local. */
  lemma ProductionRejectsLocal(origin: string, frontendUrl: string)
    requires origin != "" && origin != frontendUrl
    ensures AllowOrigin(Some(origin), frontendUrl, "production") == AppCors.Reject(AppCors.NotAllowedMessage)
  {
  }
}
