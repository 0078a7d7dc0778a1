# Gmail OAuth bridge — a Dafny model of its decision logic

The bridge lets a user grant read-only Gmail access with the OAuth2 authorization-code flow
(RFC 6749, section 4.1, with the `state` parameter as the CSRF defence of section 10.12), then
hands the resulting credentials to an n8n instance: to its credential-registration API, to a
webhook, or to both. This project models, in `server.js`, the boot-time configuration check,
the OAuth client's redirect URI, the `POST /auth` initiator and the `GET /oauth2/callback`
handler, and proves what they decide.

Layout (one module per file):

- `js_values.dfy` (`JsValues`): `undefined`, truthiness of `!x`, the `||` fallback, and `===`
  between a query parameter and a cookie value.
- `google_oauth.dfy` (`GoogleOAuth`): the client configuration, the authorization-request
  parameters, the token set, and the outcomes of the token exchange and the profile lookup.
- `config.dfy` (`BridgeConfig`): the environment, `Boot` (the presence check) and `ClientFor`.
- `http.dfy` (`Http`): responses as values (a redirect with cookies, or a status and body).
- `initiator.dfy` (`Initiator`): `HandleAuth` and the predicate `Initiated` it establishes.
- `sinks.dfy` (`N8nSinks`): the registration payload and label, the webhook body, and the
  outcomes of the two sink calls.
- `callback.dfy` (`Callback`): `HandleCallback`, written step by step with early exits, and
  the reference definition it is proved to compute: `Flow` (with its stages `Forward` and
  `Notify`) tags every failure with its kind, and `Render` maps the outcome to the response.
  Each external call is appended to a trace, so the lemmas can say which calls were made.
- `callback_properties.dfy` (`CallbackProperties`): the properties of the callback, proved
  about `Flow`.

The network calls and the random state generator are inputs. The minted state is a parameter
of `HandleAuth`. The results of the token exchange, the profile lookup, the registration call
and the webhook call form an `Oracle` record. Each member of that record is used at most once,
and only when the handler gets that far.

Two behaviours of the code worth knowing:

- The state check at `server.js:73` is strict `!==` on values that may be `undefined`. A
  callback with no `state` parameter and no `oauth_state` cookie passes it
  (`AbsentStateMatchesAbsentCookie`). Such a callback is then bound to no authorization
  request. Section 10.12 of RFC 6749 asks the client to bind each redirect to the
  user-agent that started it, so this is a weakness of the CSRF defence.
- A webhook call that throws is not caught before the handler's catch-all, so it yields the
  generic 500. Only the webhook's response status is ignored (`ForwardingOutcome`,
  `WebhookStatusIgnored`).

The callback also never clears the `oauth_state` cookie, so nothing stops one state value from
being used for more than one callback (`ResponsesAreClosed` states that the callback sets no
cookie).

## Model

| member | source | states |
|---|---|---|
| `BridgeConfig.Boot` | server.js:7-20 | The process serves iff the client id, client secret and base URL are all present and non-empty. The configuration it then runs with carries exactly those values and the optional sink and redirect settings unchanged. |
| `BridgeConfig.ClientFor` | server.js:47-53 | The OAuth client uses the configured id and secret. Its redirect URI is the base URL followed by `/oauth2/callback`. |
| `Initiator.HandleAuth` | server.js:55-67 | For a 24-character URL-safe minted value, the response sets exactly one cookie, `oauth_state`, holding that value with httpOnly, sameSite "lax" and secure. It redirects to the provider with the configured client, access type "offline", prompt "consent", the gmail.readonly scope alone, and the same value as `state`. |
| `JsValues.StrictEquals` | server.js:73 | `===` between a query parameter and the cookie: an absent parameter equals only an absent cookie, a string equals only the identical string, and an array or object parameter equals nothing. |
| `N8nSinks.CredentialLabel` | server.js:93 | The credential's name is "Gmail – " (with an en dash) followed by the email, and nothing else. |
| `N8nSinks.CredentialPayloadFor` | server.js:94-102 | The registration payload has type "googleOAuth2Api", is named with the label of the email, and carries the configured client id and secret and the token set unchanged. |
| `N8nSinks.CredentialsEndpoint` | server.js:104 | The registration request goes to the API base URL followed by `/credentials`. |
| `Callback.Flow` | server.js:70-90 | The reference definition of the callback. The trace is empty exactly when the code is falsy or the state mismatches. A falsy code (`ParamTruthy`: absent or "", while an array or object is truthy, server.js:72) is tagged as a missing grant. A truthy code whose state is not strictly equal to the cookie is tagged as a state mismatch. Every other run begins with the one exchange of the code, using the configured client. A grant without refresh token stops right after the exchange. There are at most four calls, and a completed run redirects to the redirect target. |
| `Callback.Forward` | server.js:92-126 | Forwarding to both sinks: the registration stage, then the webhook stage through `Notify`. It only appends calls, at most two. When registration is configured (`RegistrationConfigured`: both `N8N_API_BASE` and `N8N_API_TOKEN` truthy, server.js:92), the registration call comes next. A transport error, or a status outside 2xx (`ResponseOk`, the `resp.ok` of server.js:113), stops the flow with that one call appended. The run ends in the success redirect or a sink failure. |
| `Callback.Notify` | server.js:119-128 | The webhook call is appended exactly when `N8N_WEBHOOK_URL` is truthy (`WebhookConfigured`, server.js:120), with body {email, tokens}. Only a transport error fails; any response status gives the success redirect. |
| `Callback.Render` | server.js:77-131 | Every failure, whatever its kind, becomes the same generic 500, so no cause reaches the client. Only a missing refresh token gives the 400. Only a completed run gets a redirect, to its target, and it sets no cookie. |
| `Callback.ResolveEmail` | server.js:89 | The identity is never empty. It is the profile address when that is non-empty, and "unknown@example.com" when it is missing or empty. |
| `Callback.RedirectTarget` | server.js:128 | The success target is `ALLOWED_REDIRECT` when it is non-empty, otherwise the base URL followed by `/success`. |
| `Callback.HandleCallback` | server.js:69-133 | The step-by-step handler, with its early exits and catch-all 500, returns the response `Render(Flow(...))` and makes exactly the calls of `Flow`, in the same order. |
| `CallbackProperties.MissingCodeShortCircuits` | server.js:72 | A `code` that is falsy by `ParamTruthy` (missing or empty) yields the 500 "OAuth error. Please contact support." with an empty trace: no exchange, no profile lookup, no sink. |
| `CallbackProperties.StateCheckIsStrictEquality` | server.js:73-75 | With a code present, the callback stops with the 500 and no call iff the query `state` is not strictly equal to the cookie. When they are equal, the first call is the one exchange of that code, using the configured client. |
| `CallbackProperties.AbsentStateMatchesAbsentCookie` | server.js:73 | No `state` and no cookie compare equal, so the exchange is attempted. An empty `state` against a missing cookie is a mismatch. |
| `CallbackProperties.AlteredStateRejected` | server.js:73 | A minted state changed in any one character, compared with the original cookie, is rejected before any call. |
| `CallbackProperties.InitiatedStatePassesCallback` | server.js:57-75 | Round trip: the callback echoes the `state` of the request that `/auth` issued and returns the cookie `/auth` set. That callback passes the state check and exchanges its code. |
| `CallbackProperties.ProviderErrorsAreGeneric` | server.js:75-88 | A thrown exchange, or a thrown profile lookup after a complete grant, yields the generic 500. The trace ends at the call that threw. |
| `CallbackProperties.MissingRefreshTokenStopsBeforeForwarding` | server.js:77-79 | A token set without a truthy refresh token yields 400 "We could not get a refresh token. Please try again.", whatever the configuration. The trace then holds only the exchange: no profile lookup and no sink call. |
| `CallbackProperties.NothingPastExchangeWithoutRefreshToken` | server.js:75-126 | A trace holds a profile-lookup or sink call only if the exchange returned a token set with a truthy refresh token. |
| `CallbackProperties.SinkPayloads` | server.js:89-126 | A registration call goes to `N8N_API_BASE + "/credentials"` with `N8N_API_TOKEN`. Its payload is named "Gmail – " followed by the resolved identity, has type "googleOAuth2Api", and carries the client id, the client secret and the tokens unchanged. A webhook call goes to `N8N_WEBHOOK_URL` with body {email, tokens}. |
| `CallbackProperties.RegistrationCalledIff` | server.js:92-117 | The registration sink is called iff the flow reaches forwarding and both `N8N_API_BASE` and `N8N_API_TOKEN` are truthy (`RegistrationConfigured`). |
| `CallbackProperties.WebhookCalledIff` | server.js:113-126 | The webhook is called iff forwarding is reached, the registration sink (when configured) answered 2xx (`ResponseOk`), and `N8N_WEBHOOK_URL` is truthy (`WebhookConfigured`). So a failed registration means no webhook. |
| `CallbackProperties.ForwardingOutcome` | server.js:92-131 | Once forwarding is reached, the outcome depends only on the sinks. A registration transport error or non-2xx status fails. A webhook transport error also fails. Otherwise the flow completes with the redirect target, whatever identity was resolved. |
| `CallbackProperties.WebhookStatusIgnored` | server.js:120-128 | Any webhook status, 2xx or not, still leads to the success redirect. |
| `CallbackProperties.ResponsesAreClosed` | server.js:77-131 | The callback's only responses are the success redirect, the 400 and the generic 500, and it sets no cookie. It redirects only when forwarding was reached and no sink failed. |
| `CallbackProperties.TraceInSourceOrder` | server.js:74-126 | Calls follow the fixed order exchange, profile lookup, registration, webhook. So there are at most four, each made at most once, and the one exchange attempt comes first. |

## Left out

- Express routing and middleware, cookie parsing and body parsing (server.js:22-25): framework plumbing. The callback receives its `code` and `state` parameters and the `oauth_state` cookie as already-parsed values.
- JSON cookies (a `j:` prefix that cookie-parser decodes into an object) and signed cookies: the cookie is modelled as a string or absent.
- The static pages `/` and `/success` (server.js:27-45, 135-137): UI with no decisions in it.
- Internals of the provider library: URL encoding in `generateAuthUrl`, `getToken`, `setCredentials` and `gmail.users.getProfile` (server.js:60, 75, 81, 88). The authorization request is a record of its parameters. The exchange and profile results are oracle inputs. The credentials that `setCredentials` installs appear as the credentials of the profile-lookup call.
- The HTTP transport of the sink calls: `fetch`, the method and headers (only the bearer token is kept), and the JSON encoding of the bodies (server.js:104-111, 121-125). Payloads are records. `resp.ok` is modelled as a 2xx status. Reading the error text of a rejected registration is left out, because the 500 follows whether or not that read succeeds.
- Random generation of the state value (server.js:57): the value is a parameter, required to be 24 URL-safe characters.
- Console logging, `process.exit`, the port and `app.listen` (server.js:18-19, 130, 139-140): process side effects. The boot check is the function `Boot`, whose `None` result stands for "the process exits".
- The commented-out userinfo lookup (server.js:83-85): dead code.
- Asynchronous scheduling, timeouts and concurrent requests: the handler's steps run strictly in sequence, and requests share no state.
- The redirect status code and the response headers the framework adds: a redirect is modelled by its target and its cookies.
