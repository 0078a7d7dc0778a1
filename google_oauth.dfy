/** What the bridge hands to, and gets back from, the provider's client library. The library
    itself (URL encoding, the token endpoint, the mailbox profile call) is not modelled: its
    results are outcomes supplied from outside. */
module GoogleOAuth {
  import opened JsValues

  /** The read-only mailbox scope, the only scope the bridge requests. */
  const GMAIL_READONLY_SCOPE := "https://www.googleapis.com/auth/gmail.readonly"

  /** The configuration an OAuth2 client object is constructed with. */
  datatype OAuthClient = OAuthClient(clientId: string, clientSecret: string, redirectUri: string)

  /** The parameters of an authorization request; the library turns them into a URL. */
  datatype AuthRequest = AuthRequest(
    client: OAuthClient,
    accessType: string,
    prompt: string,
    scope: seq<string>,
    state: string)

  /** The credential set returned by the token endpoint; any field may be missing. */
  datatype Tokens = Tokens(
    accessToken: Option<string>,
    refreshToken: Option<string>,
    scope: Option<string>,
    tokenType: Option<string>,
    idToken: Option<string>,
    expiryDate: Option<int>)

  /** The outcome of exchanging an authorization code: the token set, or a thrown error. */
  datatype ExchangeOutcome = Exchanged(tokens: Tokens) | ExchangeThrew

  /** The outcome of the mailbox profile lookup: an email address that may be missing or
      empty, or a thrown error. */
  datatype ProfileOutcome = Profile(emailAddress: Option<string>) | ProfileThrew
}
