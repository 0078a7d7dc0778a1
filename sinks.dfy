/** The two downstream sinks of the automation system: the credential-registration API and the
    webhook. Their payloads are modelled as records; the HTTP transport is not modelled. */
module N8nSinks {
  import opened JsValues
  import opened GoogleOAuth
  import opened BridgeConfig

  /** The credential type the registration API is asked to create. */
  const CREDENTIAL_TYPE := "googleOAuth2Api"
  /** The label prefix of a registered credential ("Gmail", an en dash, spaces). */
  const CREDENTIAL_LABEL_PREFIX := "Gmail \U{2013} "
  /** The path, under the registration API's base URL, that creates a credential. */
  const CREDENTIALS_PATH := "/credentials"

  /** The `data` part of a credential-creation request. */
  datatype CredentialData = CredentialData(clientId: string, clientSecret: string, oauthTokenData: Tokens)

  /** A credential-creation request body. */
  datatype CredentialPayload = CredentialPayload(name: string, credentialType: string, data: CredentialData)

  /** The webhook request body. */
  datatype WebhookBody = WebhookBody(email: string, tokens: Tokens)

  /** The outcome of the registration call: an HTTP status, or a transport error. */
  datatype RegistrationOutcome = RegistrationResponded(status: int) | RegistrationThrew

  /** The outcome of the webhook call: an HTTP status (never inspected), or a transport error. */
  datatype WebhookOutcome = WebhookResponded(status: int) | WebhookThrew

  /** The `ok` flag of an HTTP response: a status in the 2xx range. */
  predicate ResponseOk(status: int)
  {
    200 <= status < 300
  }

  /** The registration sink is used only when both its base URL and its token are set. */
  predicate RegistrationConfigured(cfg: Config)
  {
    Truthy(cfg.n8nApiBase) && Truthy(cfg.n8nApiToken)
  }

  /** The webhook sink is used only when its URL is set. */
  predicate WebhookConfigured(cfg: Config)
  {
    Truthy(cfg.n8nWebhookUrl)
  }

  /** The human-readable label of the credential registered for `email`. */
  function CredentialLabel(email: string): (name: string)
    ensures |name| == |CREDENTIAL_LABEL_PREFIX| + |email|
    ensures name[..|CREDENTIAL_LABEL_PREFIX|] == "Gmail \U{2013} "
    ensures name[|CREDENTIAL_LABEL_PREFIX|..] == email
  {
    CREDENTIAL_LABEL_PREFIX + email
  }

  /** The credential-creation request for `email` and the exchanged `tokens`. */
  function CredentialPayloadFor(cfg: Config, email: string, tokens: Tokens): (payload: CredentialPayload)
    ensures payload.credentialType == "googleOAuth2Api"
    ensures |payload.name| == |CREDENTIAL_LABEL_PREFIX| + |email|
    ensures payload.name[..|CREDENTIAL_LABEL_PREFIX|] == CREDENTIAL_LABEL_PREFIX
    ensures payload.name[|CREDENTIAL_LABEL_PREFIX|..] == email
    ensures payload.data.clientId == cfg.clientId && payload.data.clientSecret == cfg.clientSecret
    ensures payload.data.oauthTokenData == tokens
  {
    CredentialPayload(CredentialLabel(email), CREDENTIAL_TYPE,
                      CredentialData(cfg.clientId, cfg.clientSecret, tokens))
  }

  /** The endpoint that creates credentials under the registration API's base URL. */
  function CredentialsEndpoint(apiBase: string): (endpoint: string)
    ensures |endpoint| == |apiBase| + |CREDENTIALS_PATH|
    ensures endpoint[..|apiBase|] == apiBase
    ensures endpoint[|apiBase|..] == "/credentials"
  {
    apiBase + CREDENTIALS_PATH
  }
}
