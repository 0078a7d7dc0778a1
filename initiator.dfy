/** The authorization initiator (`POST /auth`): mint a state value, keep it in a protected
    cookie, and redirect to the provider with an offline, forced-consent, read-only request. */
module Initiator {
  import opened GoogleOAuth
  import opened BridgeConfig
  import opened Http

  /** The name of the cookie that holds the anti-forgery state between the two requests. */
  const STATE_COOKIE := "oauth_state"
  /** The number of characters of a minted state value. */
  const STATE_LENGTH := 24

  /** A character of the URL-safe alphabet the state generator draws from. */
  predicate IsUrlSafe(ch: char)
  {
    ('A' <= ch <= 'Z') || ('a' <= ch <= 'z') || ('0' <= ch <= '9') || ch == '_' || ch == '-'
  }

  /** A value the state generator can produce: 24 URL-safe characters. */
  predicate IsStateToken(s: string)
  {
    |s| == STATE_LENGTH && forall i :: 0 <= i < |s| ==> IsUrlSafe(s[i])
  }

  /** What `POST /auth` promises about its response for the minted value `minted`: exactly one
      cookie, `oauth_state`, carrying `minted` with httpOnly, sameSite "lax" and secure; and a
      redirect to the provider with an authorization request of the configured client, access
      type "offline", prompt "consent", the read-only mailbox scope alone, and state `minted`. */
  ghost predicate Initiated(cfg: Config, minted: string, res: Response)
  {
    && res.Redirect?
    && |res.cookies| == 1
    && res.cookies[0].name == STATE_COOKIE
    && res.cookies[0].value == minted
    && res.cookies[0].httpOnly && res.cookies[0].sameSite == "lax" && res.cookies[0].secure
    && res.location.AuthorizationEndpoint?
    && res.location.request.client == ClientFor(cfg)
    && res.location.request.accessType == "offline"
    && res.location.request.prompt == "consent"
    && res.location.request.scope == [GMAIL_READONLY_SCOPE]
    && res.location.request.state == minted
  }

  /** `POST /auth`; `minted` is the output of the random state generator. */
  method HandleAuth(cfg: Config, minted: string) returns (res: Response)
    requires IsStateToken(minted)
    ensures Initiated(cfg, minted, res)
    ensures res.Redirect? && |res.cookies[0].value| == STATE_LENGTH
    ensures res.location.AuthorizationEndpoint? && res.cookies[0].value == res.location.request.state
  {
    var client := ClientFor(cfg);
    var state := minted;
    var cookies := [Cookie(STATE_COOKIE, state, true, "lax", true)];
    var request := AuthRequest(client, "offline", "consent", [GMAIL_READONLY_SCOPE], state);
    res := Redirect(AuthorizationEndpoint(request), cookies);
  }
}
