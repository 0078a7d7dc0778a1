/** The callback handler (`GET /oauth2/callback`): validate the code and the state, exchange the
    code, insist on a refresh token, resolve the mailbox address, hand the credentials to the
    configured sinks, and redirect. External calls are recorded, in order, in a trace; their
    results come from an oracle. */
module Callback {
  import opened JsValues
  import opened GoogleOAuth
  import opened BridgeConfig
  import opened Http
  import opened N8nSinks

  /** The body of every failure other than a missing refresh token (status 500). */
  const GENERIC_ERROR := "OAuth error. Please contact support."
  /** The body of the response to a grant without a refresh token (status 400). */
  const NO_REFRESH_TOKEN := "We could not get a refresh token. Please try again."
  /** The identity used when the profile lookup yields no address. */
  const UNKNOWN_EMAIL := "unknown@example.com"
  /** The path appended to the base URL when no redirect override is set. */
  const SUCCESS_PATH := "/success"
  /** The user id the profile lookup asks for (the authenticated user). */
  const PROFILE_USER := "me"

  /** What the callback reads from the request: the `code` and `state` query parameters and the
      `oauth_state` cookie. */
  datatype CallbackRequest = CallbackRequest(code: Param, state: Param, stateCookie: Option<string>)

  /** The outcomes the external calls yield, if they are made. */
  datatype Oracle = Oracle(
    exchange: ExchangeOutcome,
    profile: ProfileOutcome,
    registration: RegistrationOutcome,
    webhook: WebhookOutcome)

  /** An external call the handler makes, with what it sends. */
  datatype Call =
    | TokenExchange(client: OAuthClient, code: Param)
    | ProfileLookup(userId: string, credentials: Tokens)
    | CreateCredential(endpoint: string, bearerToken: string, payload: CredentialPayload)
    | PostWebhook(url: string, body: WebhookBody)

  /** Why a callback failed. */
  datatype Failure =
    | MissingGrant
    | StateMismatch
    | ExchangeFailure
    | IdentityResolutionFailure
    | RegistrationRejected(status: int)
    | RegistrationTransportFailure
    | WebhookTransportFailure

  /** How a callback ended: a failure, a grant without refresh token, or a completed handoff
      followed by a redirect to `target`. */
  datatype Outcome = Failed(failure: Failure) | IncompleteGrant | Completed(target: string)

  /** An outcome with the external calls made to reach it, in order. */
  datatype Run = Run(outcome: Outcome, calls: seq<Call>)

  /** The identity the flow continues with: the profile address, or the sentinel when it is
      missing or empty. */
  function ResolveEmail(emailAddress: Option<string>): (email: string)
    ensures email != ""
    ensures Truthy(emailAddress) ==> email == emailAddress.value
    ensures !Truthy(emailAddress) ==> email == UNKNOWN_EMAIL
  {
    OrElse(emailAddress, UNKNOWN_EMAIL)
  }

  /** Where a completed callback redirects: the override when it is set, otherwise the base URL
      followed by the success path. */
  function RedirectTarget(cfg: Config): (target: string)
    ensures Truthy(cfg.allowedRedirect) ==> target == cfg.allowedRedirect.value
    ensures !Truthy(cfg.allowedRedirect) ==>
      |target| == |cfg.baseUrl| + |SUCCESS_PATH|
      && target[..|cfg.baseUrl|] == cfg.baseUrl && target[|cfg.baseUrl|..] == SUCCESS_PATH
  {
    OrElse(cfg.allowedRedirect, cfg.baseUrl + SUCCESS_PATH)
  }

  /** The reference definition of the callback, stage by stage, with each failure tagged: a
      falsy code or a state mismatch stops before any call; every other run starts with the one
      exchange of the code; a grant without refresh token stops right after it; and at most the
      profile lookup and the two sink calls follow. */
  function Flow(cfg: Config, req: CallbackRequest, o: Oracle): (r: Run)
    ensures r.calls == [] <==> r.outcome in {Failed(MissingGrant), Failed(StateMismatch)}
    ensures r.outcome == Failed(MissingGrant) <==> !ParamTruthy(req.code)
    ensures r.outcome == Failed(StateMismatch) <==> ParamTruthy(req.code) && !StrictEquals(req.state, req.stateCookie)
    ensures r.calls != [] ==> r.calls[0] == TokenExchange(ClientFor(cfg), req.code)
    ensures r.outcome == IncompleteGrant ==> r.calls == [TokenExchange(ClientFor(cfg), req.code)]
    ensures |r.calls| <= 4
    ensures r.outcome.Completed? ==> r.outcome.target == RedirectTarget(cfg)
  {
    if !ParamTruthy(req.code) then Run(Failed(MissingGrant), [])
    else if !StrictEquals(req.state, req.stateCookie) then Run(Failed(StateMismatch), [])
    else
      var exchange := TokenExchange(ClientFor(cfg), req.code);
      match o.exchange
      case ExchangeThrew => Run(Failed(ExchangeFailure), [exchange])
      case Exchanged(tokens) =>
        if !Truthy(tokens.refreshToken) then Run(IncompleteGrant, [exchange])
        else
          var lookup := ProfileLookup(PROFILE_USER, tokens);
          match o.profile
          case ProfileThrew => Run(Failed(IdentityResolutionFailure), [exchange, lookup])
          case Profile(address) => Forward(cfg, ResolveEmail(address), tokens, o, [exchange, lookup])
  }

  /** Forwarding to the sinks: the registration stage, then (through `Notify`) the webhook
      stage. It only appends to the calls already
      made: at most the registration call, then at most the webhook call. It ends either in
      the success redirect or in a sink failure. When registration is configured, its call
      comes first, and a rejection or transport error ends the flow right there. */
  function Forward(cfg: Config, email: string, tokens: Tokens, o: Oracle, done: seq<Call>): (r: Run)
    ensures |done| <= |r.calls| <= |done| + 2 && r.calls[..|done|] == done
    ensures r.outcome.Completed? ==> r.outcome.target == RedirectTarget(cfg)
    ensures r.outcome.Failed? ==>
      r.outcome.failure in {RegistrationTransportFailure, WebhookTransportFailure} || r.outcome.failure.RegistrationRejected?
    ensures r.outcome.Completed? || r.outcome.Failed?
    ensures RegistrationConfigured(cfg) ==> |r.calls| > |done| && r.calls[|done|].CreateCredential?
    ensures r.outcome.Failed? && r.outcome.failure != WebhookTransportFailure ==> |r.calls| == |done| + 1
  {
    if !RegistrationConfigured(cfg) then Notify(cfg, email, tokens, o, done)
    else
      var create := CreateCredential(CredentialsEndpoint(cfg.n8nApiBase.value), cfg.n8nApiToken.value,
                                     CredentialPayloadFor(cfg, email, tokens));
      match o.registration
      case RegistrationThrew => Run(Failed(RegistrationTransportFailure), done + [create])
      case RegistrationResponded(status) =>
        if !ResponseOk(status) then Run(Failed(RegistrationRejected(status)), done + [create])
        else Notify(cfg, email, tokens, o, done + [create])
  }

  /** The webhook stage. It appends the webhook call exactly when the URL is set. Its
      response status is never looked at: only a transport error fails, and every other run
      ends in the success redirect. */
  function Notify(cfg: Config, email: string, tokens: Tokens, o: Oracle, done: seq<Call>): (r: Run)
    ensures r.calls == if WebhookConfigured(cfg)
                       then done + [PostWebhook(cfg.n8nWebhookUrl.value, WebhookBody(email, tokens))]
                       else done
    ensures r.outcome == if WebhookConfigured(cfg) && o.webhook.WebhookThrew?
                         then Failed(WebhookTransportFailure)
                         else Completed(RedirectTarget(cfg))
  {
    if !WebhookConfigured(cfg) then Run(Completed(RedirectTarget(cfg)), done)
    else
      var post := PostWebhook(cfg.n8nWebhookUrl.value, WebhookBody(email, tokens));
      match o.webhook
      case WebhookThrew => Run(Failed(WebhookTransportFailure), done + [post])
      case WebhookResponded(_) => Run(Completed(RedirectTarget(cfg)), done + [post])
  }

  /** The handler's error boundary. Whatever the kind of failure, the client sees the same
      generic 500 and no detail of the cause. Only a grant without refresh token gets the 400.
      Only a completed handoff gets a redirect, which sets no cookie. */
  function Render(outcome: Outcome): (res: Response)
    ensures outcome.Failed? ==> res == Send(500, GENERIC_ERROR)
    ensures res.Send? <==> !outcome.Completed?
    ensures res == Send(400, NO_REFRESH_TOKEN) <==> outcome == IncompleteGrant
    ensures outcome.Completed? ==> res.location == Url(outcome.target) && res.cookies == []
  {
    match outcome
    case Failed(_) => Send(500, GENERIC_ERROR)
    case IncompleteGrant => Send(400, NO_REFRESH_TOKEN)
    case Completed(target) => Redirect(Url(target), [])
  }

  /** `GET /oauth2/callback`: early exits, one per thrown error, all answered with the 500. */
  method HandleCallback(cfg: Config, req: CallbackRequest, o: Oracle) returns (res: Response, calls: seq<Call>)
    ensures res == Render(Flow(cfg, req, o).outcome)
    ensures calls == Flow(cfg, req, o).calls
  {
    calls := [];
    var generic := Send(500, GENERIC_ERROR);
    if !ParamTruthy(req.code) {
      res := generic;
      return;
    }
    if !StrictEquals(req.state, req.stateCookie) {
      res := generic;
      return;
    }
    var client := ClientFor(cfg);
    calls := calls + [TokenExchange(client, req.code)];
    var tokens: Tokens;
    match o.exchange {
      case ExchangeThrew =>
        res := generic;
        return;
      case Exchanged(t) =>
        tokens := t;
    }
    if !Truthy(tokens.refreshToken) {
      res := Send(400, NO_REFRESH_TOKEN);
      return;
    }
    calls := calls + [ProfileLookup(PROFILE_USER, tokens)];
    var email: string;
    match o.profile {
      case ProfileThrew =>
        res := generic;
        return;
      case Profile(address) =>
        email := ResolveEmail(address);
    }
    if RegistrationConfigured(cfg) {
      var payload := CredentialPayloadFor(cfg, email, tokens);
      calls := calls + [CreateCredential(CredentialsEndpoint(cfg.n8nApiBase.value), cfg.n8nApiToken.value, payload)];
      match o.registration {
        case RegistrationThrew =>
          res := generic;
          return;
        case RegistrationResponded(status) =>
          if !ResponseOk(status) {
            res := generic;
            return;
          }
      }
    }
    if WebhookConfigured(cfg) {
      calls := calls + [PostWebhook(cfg.n8nWebhookUrl.value, WebhookBody(email, tokens))];
      if o.webhook.WebhookThrew? {
        res := generic;
        return;
      }
    }
    res := Redirect(Url(RedirectTarget(cfg)), []);
  }
}
