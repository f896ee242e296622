/**
 * The api relay's configuration (app/src/api/config/index.ts): values read from the environment
 * once, with defaults, and `validate`, which checks the environment again when it is called.
 */
module ApiConfig {
  import opened Wrappers
  import opened JsText
  import opened Environment

  datatype Webhook = Webhook(baseUrl: string, apiKey: string, authorizationKey: string, token: string, timeout: int)

  /** Window length and request budget; None stands for the NaN `parseInt` gives on a non-numeral. */
  datatype RateLimit = RateLimit(windowMs: Option<int>, maxRequests: Option<int>)

  datatype Config = Config(port: Option<int>, nodeEnv: string, frontendUrl: string, webhook: Webhook, rateLimit: RateLimit)

  /** Five minutes, in milliseconds. */
  const WebhookTimeout := 300000

  const Required: seq<string> := ["WEBHOOK_BASE_URL", "WEBHOOK_AUTHORIZATION_KEY", "WEBHOOK_TOKEN"]

  /** The configuration object as the module builds it from `env` at load time. */
  function Load(env: Env): (c: Config)
    ensures c.webhook.timeout == WebhookTimeout
    ensures c.webhook.baseUrl == Or(env, "WEBHOOK_BASE_URL", "")
    ensures c.webhook.apiKey == Or(env, "WEBHOOK_API_KEY", "")
    ensures c.webhook.authorizationKey == Or(env, "WEBHOOK_AUTHORIZATION_KEY", "")
    ensures c.webhook.token == Or(env, "WEBHOOK_TOKEN", "")
    ensures c.frontendUrl == Or(env, "FRONTEND_URL", "http://localhost:3000")
    ensures c.nodeEnv == Or(env, "NODE_ENV", "development")
  {
    Config(
      ParseInt10(Or(env, "PORT", "3001")),
      Or(env, "NODE_ENV", "development"),
      Or(env, "FRONTEND_URL", "http://localhost:3000"),
      Webhook(
        Or(env, "WEBHOOK_BASE_URL", ""),
        Or(env, "WEBHOOK_API_KEY", ""),
        Or(env, "WEBHOOK_AUTHORIZATION_KEY", ""),
        Or(env, "WEBHOOK_TOKEN", ""),
        WebhookTimeout),
      RateLimit(
        ParseInt10(Or(env, "RATE_LIMIT_WINDOW_MS", "900000")),
        ParseInt10(Or(env, "RATE_LIMIT_MAX_REQUESTS", "100"))))
  }

  /** `config.validate()` with the environment `env` of the moment: None when it returns, else the message it throws. */
  function Validate(c: Config, env: Env): (r: Option<string>)
    ensures r.None? ==> c.webhook.baseUrl != "" && c.webhook.authorizationKey != "" && c.webhook.token != ""
  {
    var missing := MissingNames(env, Required);
    if |missing| > 0 then Some(MissingMessage(missing))
    else if c.webhook.baseUrl == "" || c.webhook.authorizationKey == "" || c.webhook.token == "" then Some(IncompleteMessage)
    else None
  }

  /** With an empty environment every value takes its default. */
  lemma Defaults()
    ensures Load(map[]) == Config(Some(3001), "development", "http://localhost:3000",
                                  Webhook("", "", "", "", 300000), RateLimit(Some(900000), Some(100)))
  {
    DefaultPortParses();
    DefaultWindowParses();
    DefaultMaxParses();
  }

  /** The message lists exactly the unset names among the three required ones, in their order. */
  lemma MissingListedInOrder(env: Env)
    ensures MissingNames(env, Required) ==
              (if IsSet(env, "WEBHOOK_BASE_URL") then [] else ["WEBHOOK_BASE_URL"]) +
              (if IsSet(env, "WEBHOOK_AUTHORIZATION_KEY") then [] else ["WEBHOOK_AUTHORIZATION_KEY"]) +
              (if IsSet(env, "WEBHOOK_TOKEN") then [] else ["WEBHOOK_TOKEN"])
  {
    MissingOfThree(env, "WEBHOOK_BASE_URL", "WEBHOOK_AUTHORIZATION_KEY", "WEBHOOK_TOKEN");
  }

  /** When some required names are unset, `validate` throws the message that lists them. */
  lemma MissingReported(env: Env)
    requires MissingNames(env, Required) != []
    ensures Validate(Load(env), env) == Some(MissingMessage(MissingNames(env, Required)))
  {
  }

  /** In an unchanged environment, `validate` succeeds exactly when the three required variables are non-empty. */
  lemma ValidateSucceedsIff(env: Env)
    ensures Validate(Load(env), env).None? <==>
              IsSet(env, "WEBHOOK_BASE_URL") && IsSet(env, "WEBHOOK_AUTHORIZATION_KEY") && IsSet(env, "WEBHOOK_TOKEN")
  {
    MissingListedInOrder(env);
  }

  /** In an unchanged environment the incomplete-configuration error never fires. */
  lemma IncompleteUnreachable(env: Env)
    ensures Validate(Load(env), env) != Some(IncompleteMessage)
  {
    MissingListedInOrder(env);
    MessagesDiffer(MissingNames(env, Required));
  }

  /** It does fire when the variables were set only after the configuration was loaded. */
  lemma IncompleteAfterLateChange()
    ensures var later := map["WEBHOOK_BASE_URL" := "u", "WEBHOOK_AUTHORIZATION_KEY" := "a", "WEBHOOK_TOKEN" := "t"];
            Validate(Load(map[]), later) == Some(IncompleteMessage)
  {
    var later := map["WEBHOOK_BASE_URL" := "u", "WEBHOOK_AUTHORIZATION_KEY" := "a", "WEBHOOK_TOKEN" := "t"];
    MissingListedInOrder(later);
  }

  /** WEBHOOK_API_KEY is read but never required: its value does not affect validation. */
  lemma ApiKeyNotRequired(env: Env, value: string)
    ensures var env' := env["WEBHOOK_API_KEY" := value];
            Validate(Load(env'), env') == Validate(Load(env), env)
  {
    var env' := env["WEBHOOK_API_KEY" := value];
    MissingListedInOrder(env);
    MissingListedInOrder(env');
    assert IsSet(env', "WEBHOOK_BASE_URL") == IsSet(env, "WEBHOOK_BASE_URL");
    assert IsSet(env', "WEBHOOK_AUTHORIZATION_KEY") == IsSet(env, "WEBHOOK_AUTHORIZATION_KEY");
    assert IsSet(env', "WEBHOOK_TOKEN") == IsSet(env, "WEBHOOK_TOKEN");
  }
}
