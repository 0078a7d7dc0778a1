/** The responses the bridge's handlers produce, as values. */
module Http {
  import opened GoogleOAuth

  /** A cookie set on the response, with the attributes the bridge passes. */
  datatype Cookie = Cookie(name: string, value: string, httpOnly: bool, sameSite: string, secure: bool)

  /** Where a redirect points: a plain URL, or the provider's authorization endpoint carrying an
      authorization request (whose URL encoding belongs to the provider library). */
  datatype Location = Url(href: string) | AuthorizationEndpoint(request: AuthRequest)

  /** A redirect (with the cookies set before it), or a status with a text body. */
  datatype Response = Redirect(location: Location, cookies: seq<Cookie>) | Send(status: int, body: string)
}
