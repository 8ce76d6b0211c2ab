/** The environment variables the site reads, as values (absent variables are `None`). */
module Config {
  import opened Wrappers

  datatype Env = Env(
    nodeEnv: Option<string>,
    sessionSecret: Option<string>,
    twilioAccountSid: Option<string>,
    twilioAuthToken: Option<string>,
    twilioVerifyServiceSid: Option<string>,
    dentalinkBaseUrl: Option<string>,
    dentalinkToken: Option<string>,
    dentalinkClientId: Option<string>,
    openAiApiKey: Option<string>,
    anthropicApiKey: Option<string>,
    whatsappWebhookVerifyToken: Option<string>,
    internalApiKey: Option<string>)

  /** JavaScript truthiness of an optional string: present and non-empty. */
  predicate Truthy(v: Option<string>) {
    v.Some? && v.value != ""
  }

  predicate IsProduction(env: Env) {
    env.nodeEnv == Some("production")
  }

  /** `a || b` on optional strings. */
  function OrElse(a: Option<string>, b: Option<string>): (r: Option<string>)
    ensures Truthy(a) ==> r == a
    ensures !Truthy(a) ==> r == b
  {
    if Truthy(a) then a else b
  }
}
