/** The process environment, the boot-time presence check and the OAuth client it configures. */
module BridgeConfig {
  import opened JsValues
  import opened GoogleOAuth

  /** The path on which the provider redirects back to the bridge. */
  const CALLBACK_PATH := "/oauth2/callback"

  /** The environment variables the bridge reads once at start-up. */
  datatype Env = Env(
    googleClientId: Option<string>,
    googleClientSecret: Option<string>,
    baseUrl: Option<string>,
    n8nApiBase: Option<string>,
    n8nApiToken: Option<string>,
    n8nWebhookUrl: Option<string>,
    allowedRedirect: Option<string>)

  /** The configuration of a process that got past the boot check: the three required values
      are present, the sink settings and the redirect override stay optional. */
  datatype Config = Config(
    clientId: string,
    clientSecret: string,
    baseUrl: string,
    n8nApiBase: Option<string>,
    n8nApiToken: Option<string>,
    n8nWebhookUrl: Option<string>,
    allowedRedirect: Option<string>)

  /** The boot check: the process serves only when the client id, the client secret and the
      base URL are all present and non-empty; otherwise it exits before listening (None). */
  function Boot(env: Env): (r: Option<Config>)
    ensures r.Some? <==> env.googleClientId !in {None, Some("")}
                         && env.googleClientSecret !in {None, Some("")}
                         && env.baseUrl !in {None, Some("")}
    ensures r.Some? ==>
      && r.value.clientId != "" && Some(r.value.clientId) == env.googleClientId
      && r.value.clientSecret != "" && Some(r.value.clientSecret) == env.googleClientSecret
      && r.value.baseUrl != "" && Some(r.value.baseUrl) == env.baseUrl
      && r.value.n8nApiBase == env.n8nApiBase
      && r.value.n8nApiToken == env.n8nApiToken
      && r.value.n8nWebhookUrl == env.n8nWebhookUrl
      && r.value.allowedRedirect == env.allowedRedirect
  {
    assert forall v: Option<string> :: Truthy(v) <==> v !in {None, Some("")};
    if !Truthy(env.googleClientId) || !Truthy(env.googleClientSecret) || !Truthy(env.baseUrl) then
      None
    else
      Some(Config(env.googleClientId.value, env.googleClientSecret.value, env.baseUrl.value,
                  env.n8nApiBase, env.n8nApiToken, env.n8nWebhookUrl, env.allowedRedirect))
  }

  /** The OAuth client every handler constructs: the configured id and secret, and a redirect
      URI made of the base URL followed by the callback path. */
  function ClientFor(cfg: Config): (c: OAuthClient)
    ensures c.clientId == cfg.clientId && c.clientSecret == cfg.clientSecret
    ensures |c.redirectUri| == |cfg.baseUrl| + |CALLBACK_PATH|
    ensures c.redirectUri[..|cfg.baseUrl|] == cfg.baseUrl
    ensures c.redirectUri[|cfg.baseUrl|..] == CALLBACK_PATH
  {
    OAuthClient(cfg.clientId, cfg.clientSecret, cfg.baseUrl + CALLBACK_PATH)
  }
}
