/** The two records oidc.go exchanges with the identity provider. */
module Tokens {
  import opened Wrappers

  /** A JSON object the userinfo endpoint returns, kept as its member map. */
  type UserInfo = map<string, string>

  /** The token endpoint response of RFC 6749 section 5.1, with the userinfo
      document attached for output. */
  datatype OAuthAccessResponse = OAuthAccessResponse(
    tokenType: string,
    scope: string,
    expiresIn: int,
    accessToken: string,
    refreshToken: string,
    idToken: string,
    userInfo: Option<UserInfo>)

  /** Go's zero value of the response struct. */
  const NoTokens := OAuthAccessResponse("", "", 0, "", "", "", None)

  /** The three fields of the provider's metadata document the client uses. */
  datatype OidcMetadata = OidcMetadata(
    authEndpoint: string,
    tokenEndpoint: string,
    userInfoEndpoint: string)

  /** What a failed metadata fetch yields: every endpoint empty. */
  const NoMetadata := OidcMetadata("", "", "")
}
