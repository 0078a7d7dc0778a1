/** What the callback handler guarantees, stated over its reference definition `Flow` (which the
    handler method is proved to compute) and, for the state round trip, over `POST /auth`. */
module CallbackProperties {
  import opened JsValues
  import opened GoogleOAuth
  import opened BridgeConfig
  import opened Http
  import opened N8nSinks
  import opened Initiator
  import opened Callback

  /** The position of each kind of external call in the handler's fixed order. */
  function Rank(c: Call): (n: nat)
  {
    match c
    case TokenExchange(_, _) => 0
    case ProfileLookup(_, _) => 1
    case CreateCredential(_, _, _) => 2
    case PostWebhook(_, _) => 3
  }

  /** Every call comes strictly later in the fixed order than the calls before it. */
  ghost predicate InSourceOrder(calls: seq<Call>)
  {
    forall i, j :: 0 <= i < j < |calls| ==> Rank(calls[i]) < Rank(calls[j])
  }

  /** The callback gets past the code check, the state check, the exchange, the refresh-token
      check and the profile lookup, so that the credentials are handed on. */
  ghost predicate ReachesForwarding(req: CallbackRequest, o: Oracle)
  {
    && ParamTruthy(req.code)
    && StrictEquals(req.state, req.stateCookie)
    && o.exchange.Exchanged?
    && Truthy(o.exchange.tokens.refreshToken)
    && o.profile.Profile?
  }

  /** The registration sink, if configured, answers with a 2xx status. */
  ghost predicate RegistrationSucceeds(cfg: Config, o: Oracle)
  {
    !RegistrationConfigured(cfg) || (o.registration.RegistrationResponded? && ResponseOk(o.registration.status))
  }

  /** A missing or empty code ends the callback with the generic 500 before any external call. */
  lemma MissingCodeShortCircuits(cfg: Config, req: CallbackRequest, o: Oracle)
    requires !ParamTruthy(req.code)
    ensures Flow(cfg, req, o) == Run(Failed(MissingGrant), [])
    ensures Render(Flow(cfg, req, o).outcome) == Send(500, GENERIC_ERROR)
  {
  }

  /** With a code present, the state check is strict equality of the query `state` and the
      cookie: a mismatch ends the callback with the generic 500 and no call; a match leads to
      exactly one exchange attempt, first, with the configured client and the code as given. */
  lemma StateCheckIsStrictEquality(cfg: Config, req: CallbackRequest, o: Oracle)
    requires ParamTruthy(req.code)
    ensures !StrictEquals(req.state, req.stateCookie) <==> Flow(cfg, req, o) == Run(Failed(StateMismatch), [])
    ensures StrictEquals(req.state, req.stateCookie) ==>
      |Flow(cfg, req, o).calls| >= 1 && Flow(cfg, req, o).calls[0] == TokenExchange(ClientFor(cfg), req.code)
  {
  }

  /** A callback with neither a `state` parameter nor a cookie passes the state check (both are
      `undefined`), while an empty `state` against a missing cookie does not. */
  lemma AbsentStateMatchesAbsentCookie(cfg: Config, code: Param, o: Oracle)
    requires ParamTruthy(code)
    ensures |Flow(cfg, CallbackRequest(code, Missing, None), o).calls| >= 1
    ensures Flow(cfg, CallbackRequest(code, Missing, None), o).calls[0] == TokenExchange(ClientFor(cfg), code)
    ensures Flow(cfg, CallbackRequest(code, Text(""), None), o) == Run(Failed(StateMismatch), [])
  {
  }

  /** A minted state value altered in any single character is rejected before any call. */
  lemma AlteredStateRejected(cfg: Config, minted: string, i: nat, ch: char, code: Param, o: Oracle)
    requires IsStateToken(minted) && i < |minted| && ch != minted[i]
    requires ParamTruthy(code)
    ensures Flow(cfg, CallbackRequest(code, Text(minted[i := ch]), Some(minted)), o) == Run(Failed(StateMismatch), [])
  {
  }

  /** The round trip: when the provider echoes the state of the request `POST /auth` issued and
      the browser returns the cookie it set, the state check passes and the code is exchanged. */
  lemma InitiatedStatePassesCallback(cfg: Config, minted: string, res: Response, code: Param, o: Oracle)
    requires Initiated(cfg, minted, res)
    requires ParamTruthy(code)
    ensures var run := Flow(cfg, CallbackRequest(code, Text(res.location.request.state), Some(res.cookies[0].value)), o);
      |run.calls| >= 1 && run.calls[0] == TokenExchange(ClientFor(cfg), code)
  {
  }

  /** A thrown exchange or a thrown profile lookup ends the callback with the generic 500. */
  lemma ProviderErrorsAreGeneric(cfg: Config, req: CallbackRequest, o: Oracle)
    requires ParamTruthy(req.code) && StrictEquals(req.state, req.stateCookie)
    ensures o.exchange.ExchangeThrew? ==>
      Flow(cfg, req, o) == Run(Failed(ExchangeFailure), [TokenExchange(ClientFor(cfg), req.code)])
    ensures o.exchange.Exchanged? && Truthy(o.exchange.tokens.refreshToken) && o.profile.ProfileThrew? ==>
      Flow(cfg, req, o) == Run(Failed(IdentityResolutionFailure),
                               [TokenExchange(ClientFor(cfg), req.code), ProfileLookup(PROFILE_USER, o.exchange.tokens)])
    ensures o.exchange.ExchangeThrew? || (o.exchange.Exchanged? && Truthy(o.exchange.tokens.refreshToken) && o.profile.ProfileThrew?) ==>
      Render(Flow(cfg, req, o).outcome) == Send(500, GENERIC_ERROR)
  {
  }

  /** A token set without a truthy refresh token yields the 400, after the exchange and before
      anything else, whatever sinks are configured. */
  lemma MissingRefreshTokenStopsBeforeForwarding(cfg: Config, req: CallbackRequest, o: Oracle)
    requires ParamTruthy(req.code) && StrictEquals(req.state, req.stateCookie)
    requires o.exchange.Exchanged? && !Truthy(o.exchange.tokens.refreshToken)
    ensures Flow(cfg, req, o) == Run(IncompleteGrant, [TokenExchange(ClientFor(cfg), req.code)])
    ensures Render(Flow(cfg, req, o).outcome) == Send(400, NO_REFRESH_TOKEN)
  {
  }

  /** No profile lookup and no sink call happens without a token set holding a refresh token. */
  lemma NothingPastExchangeWithoutRefreshToken(cfg: Config, req: CallbackRequest, o: Oracle)
    ensures forall c :: c in Flow(cfg, req, o).calls && !c.TokenExchange? ==>
      o.exchange.Exchanged? && Truthy(o.exchange.tokens.refreshToken)
  {
  }

  /** Each sink receives exactly the payload built from the resolved identity (the profile
      address, or the sentinel) and the token set as exchanged: the registration call goes to
      the credentials endpoint with the configured token, names the credential "Gmail – "
      followed by the identity, has type "googleOAuth2Api" and carries the client id, the
      client secret and the tokens unchanged; the webhook receives {email, tokens}. */
  lemma SinkPayloads(cfg: Config, req: CallbackRequest, o: Oracle)
    ensures forall c :: c in Flow(cfg, req, o).calls && c.CreateCredential? ==>
      && ReachesForwarding(req, o) && RegistrationConfigured(cfg)
      && c.endpoint == cfg.n8nApiBase.value + CREDENTIALS_PATH
      && c.bearerToken == cfg.n8nApiToken.value
      && c.payload.name == CREDENTIAL_LABEL_PREFIX + ResolveEmail(o.profile.emailAddress)
      && c.payload.credentialType == CREDENTIAL_TYPE
      && c.payload.data == CredentialData(cfg.clientId, cfg.clientSecret, o.exchange.tokens)
    ensures forall c :: c in Flow(cfg, req, o).calls && c.PostWebhook? ==>
      && ReachesForwarding(req, o) && WebhookConfigured(cfg)
      && c.url == cfg.n8nWebhookUrl.value
      && c.body == WebhookBody(ResolveEmail(o.profile.emailAddress), o.exchange.tokens)
  {
  }

  /** The registration sink is called if and only if the flow reaches forwarding and both its
      base URL and its token are set. */
  lemma RegistrationCalledIff(cfg: Config, req: CallbackRequest, o: Oracle)
    ensures (exists c :: c in Flow(cfg, req, o).calls && c.CreateCredential?)
        <==> ReachesForwarding(req, o) && RegistrationConfigured(cfg)
  {
  }

  /** The webhook is called if and only if the flow reaches forwarding, the registration sink
      (when configured) answered 2xx, and the webhook URL is set. */
  lemma WebhookCalledIff(cfg: Config, req: CallbackRequest, o: Oracle)
    ensures (exists c :: c in Flow(cfg, req, o).calls && c.PostWebhook?)
        <==> ReachesForwarding(req, o) && RegistrationSucceeds(cfg, o) && WebhookConfigured(cfg)
  {
    var calls := Flow(cfg, req, o).calls;
    if ReachesForwarding(req, o) && RegistrationSucceeds(cfg, o) && WebhookConfigured(cfg) {
      assert calls[|calls| - 1].PostWebhook?;
      assert calls[|calls| - 1] in calls;
    }
  }

  /** Once forwarding is reached, the outcome depends only on the sinks: a registration
      transport error or non-2xx status, or a webhook transport error, ends with a failure;
      otherwise the handoff completes, whatever identity was resolved. */
  lemma ForwardingOutcome(cfg: Config, req: CallbackRequest, o: Oracle)
    requires ReachesForwarding(req, o)
    ensures Flow(cfg, req, o).outcome ==
      if RegistrationConfigured(cfg) && o.registration.RegistrationThrew? then Failed(RegistrationTransportFailure)
      else if RegistrationConfigured(cfg) && !ResponseOk(o.registration.status) then Failed(RegistrationRejected(o.registration.status))
      else if WebhookConfigured(cfg) && o.webhook.WebhookThrew? then Failed(WebhookTransportFailure)
      else Completed(RedirectTarget(cfg))
  {
  }

  /** The webhook's response status is never inspected: any status, 2xx or not, leads to the
      success redirect once the earlier stages have passed. */
  lemma WebhookStatusIgnored(cfg: Config, req: CallbackRequest, o: Oracle, status: int)
    requires ReachesForwarding(req, o) && RegistrationSucceeds(cfg, o)
    requires o.webhook == WebhookResponded(status)
    ensures Render(Flow(cfg, req, o).outcome) == Redirect(Url(RedirectTarget(cfg)), [])
  {
  }

  /** The callback answers with one of exactly three responses, and sets no cookie: the success
      redirect, which it gives only when forwarding was reached and no sink failed; the 400 for
      a missing refresh token; or the generic 500. */
  lemma ResponsesAreClosed(cfg: Config, req: CallbackRequest, o: Oracle)
    ensures var r := Render(Flow(cfg, req, o).outcome);
      r == Redirect(Url(RedirectTarget(cfg)), []) || r == Send(400, NO_REFRESH_TOKEN) || r == Send(500, GENERIC_ERROR)
    ensures Render(Flow(cfg, req, o).outcome).Redirect? ==>
      ReachesForwarding(req, o) && RegistrationSucceeds(cfg, o) && !(WebhookConfigured(cfg) && o.webhook.WebhookThrew?)
  {
  }

  /** The external calls follow the handler's fixed order (exchange, profile lookup,
      registration, webhook), so each is made at most once, and the exchange, when made, is
      the first and only exchange attempt. */
  lemma TraceInSourceOrder(cfg: Config, req: CallbackRequest, o: Oracle)
    ensures InSourceOrder(Flow(cfg, req, o).calls)
    ensures |Flow(cfg, req, o).calls| <= 4
    ensures forall i :: 0 <= i < |Flow(cfg, req, o).calls| && Flow(cfg, req, o).calls[i].TokenExchange? ==> i == 0
  {
  }
}
