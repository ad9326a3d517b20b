// The mock OAuth server: one client-credentials client, one process-wide
// token, and a server-side expiry that every successful grant moves to
// thirty minutes after the grant. The flow follows section 4.4 of RFC 6749
// (client credentials grant) loosely, and tokens travel in the header form of
// section 2.1 of RFC 6750 ("Bearer " and the token).

module MockOAuth {
  import opened Common
  import opened Text

  const ValidClientId := "bot-client"
  const ValidClientSecret := "bot-secret"
  const ClientCredentialsGrant := "client_credentials"

  /** `AddMinutes(30)`, and the `ExpiresIn` the server announces. */
  const TokenLifetimeSeconds := 1800

  const BearerPrefix := "Bearer "

  /** The form fields of `POST /oauth/token`; a field that was not sent is `Null`. */
  datatype TokenRequest = TokenRequest(grantType: Nullable<string>, clientId: Nullable<string>, clientSecret: Nullable<string>)

  datatype TokenResponse = TokenResponse(accessToken: string, tokenType: string, expiresIn: int)

  /** 400 with an error code, 401 with an error code, or 200 with a token. */
  datatype GrantResult = BadRequest(error: string) | Unauthorized(error: string) | Ok(token: TokenResponse)

  /** `Guid.ToString("N")`: 32 lower-case hexadecimal digits. */
  predicate IsGuidN(s: string) {
    |s| == 32 && forall i :: 0 <= i < |s| ==> ('0' <= s[i] <= '9' || 'a' <= s[i] <= 'f')
  }

  /** The answer to a grant request when the process-wide token is `token`. */
  function GrantDecision(request: TokenRequest, token: string): GrantResult {
    if request.grantType != Some(ClientCredentialsGrant) then BadRequest("unsupported_grant_type")
    else if request.clientId != Some(ValidClientId) || request.clientSecret != Some(ValidClientSecret) then
      Unauthorized("invalid_client")
    else Ok(TokenResponse(token, "Bearer", TokenLifetimeSeconds))
  }

  /**
   * `ValidateToken` on an `Authorization` header: the header starts with the
   * case-sensitive prefix `Bearer `, the rest is the current token, and the
   * server-side expiry has not passed.
   */
  predicate HeaderValid(authHeader: Nullable<string>, token: string, expiry: Instant, now: Instant) {
    match authHeader
    case Null => false
    case Some(h) => h != "" && StartsWith(h, BearerPrefix) && h[|BearerPrefix|..] == token && now < expiry
  }

  class OAuthController {
    /** `CurrentToken`, drawn once per process. */
    const currentToken: string
    /** `_tokenExpiry`. */
    var tokenExpiry: Instant

    /** The static initialisers, run when the process starts at `startedAt`. */
    constructor (token: string, startedAt: Instant)
      requires IsGuidN(token)
      ensures currentToken == token && tokenExpiry == startedAt + TokenLifetimeSeconds
    {
      currentToken := token;
      tokenExpiry := startedAt + TokenLifetimeSeconds;
    }

    /** `GetToken`: only a successful grant moves the expiry. */
    method GetToken(request: TokenRequest, now: Instant) returns (r: GrantResult)
      modifies this
      ensures r == GrantDecision(request, currentToken)
      ensures tokenExpiry == if r.Ok? then now + TokenLifetimeSeconds else old(tokenExpiry)
    {
      if request.grantType != Some(ClientCredentialsGrant) {
        return BadRequest("unsupported_grant_type");
      }
      if request.clientId != Some(ValidClientId) || request.clientSecret != Some(ValidClientSecret) {
        return Unauthorized("invalid_client");
      }
      tokenExpiry := now + TokenLifetimeSeconds;
      return Ok(TokenResponse(currentToken, "Bearer", TokenLifetimeSeconds));
    }

    predicate ValidateToken(authHeader: Nullable<string>, now: Instant)
      reads this
    {
      HeaderValid(authHeader, currentToken, tokenExpiry, now)
    }
  }

  // ---------------------------------------------------------------------------
  // Properties
  // ---------------------------------------------------------------------------

  /**
   * The grant type is checked before the credentials: a wrong grant type is a
   * 400 whatever the credentials; with the right one, wrong credentials are a
   * 401; otherwise the current token is handed out for 1800 seconds.
   */
  lemma GrantChecksInOrder(request: TokenRequest, token: string)
    ensures GrantDecision(request, token).BadRequest? <==> request.grantType != Some("client_credentials")
    ensures GrantDecision(request, token).Unauthorized? <==>
              request.grantType == Some("client_credentials")
              && (request.clientId != Some("bot-client") || request.clientSecret != Some("bot-secret"))
    ensures GrantDecision(request, token).Ok? ==>
              GrantDecision(request, token).token == TokenResponse(token, "Bearer", 1800)
  {
  }

  /** Every successful grant hands out the same token, whoever asks and whenever. */
  lemma GrantsShareOneToken(a: TokenRequest, b: TokenRequest, token: string)
    requires GrantDecision(a, token).Ok? && GrantDecision(b, token).Ok?
    ensures GrantDecision(a, token) == GrantDecision(b, token)
  {
  }

  /** The header built from the token is accepted exactly until the expiry. */
  lemma BearerHeaderAccepted(token: string, expiry: Instant, now: Instant)
    ensures HeaderValid(Some(BearerPrefix + token), token, expiry, now) <==> now < expiry
  {
    var h := BearerPrefix + token;
    assert h[..|BearerPrefix|] == BearerPrefix;
    assert h[|BearerPrefix|..] == token;
  }

  /** Anything other than `Bearer ` and the current token is refused, at any time. */
  lemma OtherHeadersRefused(authHeader: Nullable<string>, token: string, expiry: Instant, now: Instant)
    requires authHeader.Some? ==> authHeader.value != BearerPrefix + token
    ensures !HeaderValid(authHeader, token, expiry, now)
  {
    if authHeader.Some? {
      var h := authHeader.value;
      if StartsWith(h, BearerPrefix) {
        assert h == h[..|BearerPrefix|] + h[|BearerPrefix|..];
      }
    }
  }

  /** The scheme is case-sensitive: a `bearer ` header is refused. */
  lemma LowerCaseSchemeRefused(token: string, expiry: Instant, now: Instant)
    ensures !HeaderValid(Some("bearer " + token), token, expiry, now)
  {
    var h := "bearer " + token;
    assert h[0] == 'b';
  }
}
