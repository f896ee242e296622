/**
 * The Lambda relay's configuration (lambda/src/config/index.ts): webhook settings read from the
 * environment once, and `validate`, which checks the environment again when it is called.
 */
module LambdaConfig {
  import opened Wrappers
  import opened Environment

  datatype Webhook = Webhook(baseUrl: string, apiKey: string, authorizationKey: string, token: string, timeout: int)

  datatype Config = Config(webhook: Webhook)

  /** Five minutes, in milliseconds. */
  const WebhookTimeout := 300000

  const Required: seq<string> := ["WEBHOOK_BASE_URL", "WEBHOOK_AUTHORIZATION_KEY", "WEBHOOK_TOKEN"]

  /** The configuration object as the module builds it from `env` at load time. */
  function Load(env: Env): (c: Config)
    ensures c.webhook.timeout == WebhookTimeout
    ensures c.webhook.baseUrl == Or(env, "WEBHOOK_BASE_URL", "")
    ensures c.webhook.apiKey == Or(env, "WEBHOOK_API_KEY", "")
    ensures c.webhook.authorizationKey == Or(env, "WEBHOOK_AUTHORIZATION_KEY", "")
    ensures c.webhook.token == Or(env, "WEBHOOK_TOKEN", "")
  {
    Config(Webhook(
      Or(env, "WEBHOOK_BASE_URL", ""),
      Or(env, "WEBHOOK_API_KEY", ""),
      Or(env, "WEBHOOK_AUTHORIZATION_KEY", ""),
      Or(env, "WEBHOOK_TOKEN", ""),
      WebhookTimeout))
  }

  /** `config.validate()` with the environment `env` of the moment: None when it returns, else the message it throws. */
  function Validate(c: Config, env: Env): (r: Option<string>)
    ensures r.None? ==> c.webhook.baseUrl != "" && c.webhook.authorizationKey != "" && c.webhook.token != ""
  {
    var missing := MissingNames(env, Required);
    if |missing| > 0 then Some(MissingMessage(missing))
    else if c.webhook.baseUrl == "" || c.webhook.authorizationKey == "" || c.webhook.token == "" then Some(IncompleteMessage)
    else None
  }

  /** With an empty environment every webhook setting is "" and the timeout is five minutes. */
  lemma Defaults()
    ensures Load(map[]) == Config(Webhook("", "", "", "", 300000))
  {
  }

  /** The message lists exactly the unset names among the three required ones, in their order. */
  lemma MissingListedInOrder(env: Env)
    ensures MissingNames(env, Required) ==
              (if IsSet(env, "WEBHOOK_BASE_URL") then [] else ["WEBHOOK_BASE_URL"]) +
              (if IsSet(env, "WEBHOOK_AUTHORIZATION_KEY") then [] else ["WEBHOOK_AUTHORIZATION_KEY"]) +
              (if IsSet(env, "WEBHOOK_TOKEN") then [] else ["WEBHOOK_TOKEN"])
  {
    MissingOfThree(env, "WEBHOOK_BASE_URL", "WEBHOOK_AUTHORIZATION_KEY", "WEBHOOK_TOKEN");
  }

  /** When some required names are unset, `validate` throws the message that lists them. */
  lemma MissingReported(env: Env)
    requires MissingNames(env, Required) != []
    ensures Validate(Load(env), env) == Some(MissingMessage(MissingNames(env, Required)))
  {
  }

  /** In an unchanged environment, `validate` succeeds exactly when the three required variables are non-empty. */
  lemma ValidateSucceedsIff(env: Env)
    ensures Validate(Load(env), env).None? <==>
              IsSet(env, "WEBHOOK_BASE_URL") && IsSet(env, "WEBHOOK_AUTHORIZATION_KEY") && IsSet(env, "WEBHOOK_TOKEN")
  {
    MissingListedInOrder(env);
  }

  /** In an unchanged environment the incomplete-configuration error never fires. */
  lemma IncompleteUnreachable(env: Env)
    ensures Validate(Load(env), env) != Some(IncompleteMessage)
  {
    MissingListedInOrder(env);
    MessagesDiffer(MissingNames(env, Required));
  }

  /** WEBHOOK_API_KEY is read but never required: its value does not affect validation. */
  lemma ApiKeyNotRequired(env: Env, value: string)
    ensures var env' := env["WEBHOOK_API_KEY" := value];
            Validate(Load(env'), env') == Validate(Load(env), env)
  {
    var env' := env["WEBHOOK_API_KEY" := value];
    MissingListedInOrder(env);
    MissingListedInOrder(env');
    assert IsSet(env', "WEBHOOK_BASE_URL") == IsSet(env, "WEBHOOK_BASE_URL");
    assert IsSet(env', "WEBHOOK_AUTHORIZATION_KEY") == IsSet(env, "WEBHOOK_AUTHORIZATION_KEY");
    assert IsSet(env', "WEBHOOK_TOKEN") == IsSet(env, "WEBHOOK_TOKEN");
  }
}
