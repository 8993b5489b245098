/** The OAuth 2.0 token endpoint (RFC 6749, sections 4.1.3 and 5.2, with the
    PKCE check of RFC 7636, section 4.6): an authorization code is exchanged,
    once, for a 24-hour access token and a 30-day refresh token. */
module TokenExchange {
  import opened Common
  import opened OAuth
  import opened BankDb
  import Authorize

  /** 24 hours and 30 days, in milliseconds. */
  const AccessLifetime := 24 * 60 * 60 * 1000
  const RefreshLifetime := 30 * 24 * 60 * 60 * 1000

  /** The JSON body of `POST /api/auth/token` ("" where absent). */
  datatype TokenRequest = TokenRequest(
    grantType: string, code: string, redirectUri: string, codeVerifier: string, clientId: string)

  /** A minted JWT, as its payload and expiry; signing is not modelled. */
  datatype Jwt = Jwt(claims: Claims, expiresAt: int)

  /** The success body of the token endpoint. */
  datatype TokenResponse = TokenResponse(
    accessToken: Jwt, tokenType: string, expiresIn: int, refreshToken: Jwt, scope: string)

  datatype TokenReply = Issued(body: TokenResponse) | Refused(err: OAuthError)

  /** The outcome of the checks: a refusal, or the grant to redeem. */
  datatype Exchange = Rejected(err: OAuthError) | Accepted(grant: Grant)

  const UnknownCode := OAuthError(400, "invalid_grant", "Invalid authorization code")
  const ExpiredCode := OAuthError(400, "invalid_grant", "Authorization code expired")
  const UsedCode := OAuthError(400, "invalid_grant", "Authorization code already used")
  const MissingVerifier := OAuthError(400, "invalid_request", "Code verifier is required")
  const WrongVerifier := OAuthError(400, "invalid_grant", "Invalid code verifier")

  /** The checks on the request alone, in the order grant type, client,
      redirect URI, code present. */
  function RequestError(req: TokenRequest): (r: Option<OAuthError>)
    ensures req.grantType != "authorization_code" ==>
              r == Some(OAuthError(400, "unsupported_grant_type", "Only authorization_code grant is supported"))
    ensures req.grantType == "authorization_code" && req.clientId != Authorize.ClientId ==>
              r == Some(OAuthError(401, "invalid_client", "Invalid client ID"))
    ensures req.grantType == "authorization_code" && req.clientId == Authorize.ClientId &&
            req.redirectUri != Authorize.RedirectUri ==>
              r == Some(OAuthError(400, "invalid_grant", "Invalid redirect URI"))
    ensures req.grantType == "authorization_code" && req.clientId == Authorize.ClientId &&
            req.redirectUri == Authorize.RedirectUri && req.code == "" ==>
              r == Some(OAuthError(400, "invalid_request", "Authorization code is required"))
    ensures r.None? <==>
              req.grantType == "authorization_code" && req.clientId == Authorize.ClientId &&
              req.redirectUri == Authorize.RedirectUri && req.code != ""
  {
    if req.grantType != "authorization_code" then
      Some(OAuthError(400, "unsupported_grant_type", "Only authorization_code grant is supported"))
    else if req.clientId != Authorize.ClientId then
      Some(OAuthError(401, "invalid_client", "Invalid client ID"))
    else if req.redirectUri != Authorize.RedirectUri then
      Some(OAuthError(400, "invalid_grant", "Invalid redirect URI"))
    else if req.code == "" then
      Some(OAuthError(400, "invalid_request", "Authorization code is required"))
    else None
  }

  /** The PKCE check: no stored challenge (or an empty one, which the
      route's truthiness test also skips) means no check; otherwise a
      verifier is required, and it must hash (method "S256") or be equal (any
      other or no method) to the challenge. `s256` is base64url(SHA-256(.)). */
  function PkceError(g: Grant, verifier: string, s256: string -> string): (r: Option<OAuthError>)
    ensures g.codeChallenge.None? || g.codeChallenge.value == "" ==> r.None?
    ensures g.codeChallenge.Some? && g.codeChallenge.value != "" && verifier == "" ==> r == Some(MissingVerifier)
    ensures g.codeChallenge.Some? && g.codeChallenge.value != "" && verifier != "" ==>
              var expected := if g.codeChallengeMethod == Some("S256") then s256(verifier) else verifier;
              (r.None? <==> expected == g.codeChallenge.value) && (r.Some? ==> r == Some(WrongVerifier))
  {
    match g.codeChallenge
    case None => None
    case Some(challenge) =>
      if challenge == "" then None
      else if verifier == "" then Some(MissingVerifier)
      else
        var expected := if g.codeChallengeMethod == Some("S256") then s256(verifier) else verifier;
        if expected != challenge then Some(WrongVerifier) else None
  }

  /** The code-exchange checks, in the order of the endpoint: request checks,
      code known, not expired (`expiresAt < now` is expired), not used, PKCE. */
  function CheckExchange(grants: map<string, Grant>, req: TokenRequest, now: int, s256: string -> string): (r: Exchange)
    ensures RequestError(req).Some? ==> r == Rejected(RequestError(req).value)
    ensures RequestError(req).None? && req.code !in grants ==> r == Rejected(UnknownCode)
    ensures RequestError(req).None? && req.code in grants && grants[req.code].expiresAt < now ==>
              r == Rejected(ExpiredCode)
    ensures RequestError(req).None? && req.code in grants && grants[req.code].expiresAt >= now &&
              grants[req.code].used ==>
              r == Rejected(UsedCode)
    ensures RequestError(req).None? && req.code in grants && grants[req.code].expiresAt >= now &&
              !grants[req.code].used && PkceError(grants[req.code], req.codeVerifier, s256).Some? ==>
              r == Rejected(PkceError(grants[req.code], req.codeVerifier, s256).value)
    ensures r.Accepted? <==>
              && RequestError(req).None?
              && req.code in grants
              && grants[req.code].expiresAt >= now
              && !grants[req.code].used
              && PkceError(grants[req.code], req.codeVerifier, s256).None?
    ensures r.Accepted? ==> r.grant == grants[req.code]
  {
    if RequestError(req).Some? then Rejected(RequestError(req).value)
    else if req.code !in grants then Rejected(UnknownCode)
    else
      var g := grants[req.code];
      if g.expiresAt < now then Rejected(ExpiredCode)
      else if g.used then Rejected(UsedCode)
      else if PkceError(g, req.codeVerifier, s256).Some? then Rejected(PkceError(g, req.codeVerifier, s256).value)
      else Accepted(g)
  }

  /** The tokens minted for a redeemed grant at time `now`; `email` is the
      grant owner's email. */
  function MintTokens(g: Grant, email: string, now: int): (r: TokenResponse)
    ensures r.tokenType == "Bearer" && r.expiresIn == 86400
    ensures r.accessToken.claims.typ == AccessTokenType && r.refreshToken.claims.typ == RefreshTokenType
    ensures r.accessToken.claims.userId == g.userId && r.refreshToken.claims.userId == g.userId
    ensures r.accessToken.claims.scopes == Some(g.scopes) && r.refreshToken.claims.scopes.None?
    ensures r.accessToken.claims.email == Some(email) && r.refreshToken.claims.email.None?
    ensures r.accessToken.claims.clientId == Some(Authorize.ClientId) &&
            r.refreshToken.claims.clientId == Some(Authorize.ClientId)
    ensures r.accessToken.expiresAt - now == r.expiresIn * 1000
    ensures r.refreshToken.expiresAt == now + RefreshLifetime
    ensures r.scope == Join(g.scopes, " ")
  {
    TokenResponse(
      Jwt(Claims(g.userId, Some(email), Some(Authorize.ClientId), Some(g.scopes), AccessTokenType), now + AccessLifetime),
      "Bearer", 86400,
      Jwt(Claims(g.userId, None, Some(Authorize.ClientId), None, RefreshTokenType), now + RefreshLifetime),
      Join(g.scopes, " "))
  }

  /** `POST /api/auth/token`: on success the grant is marked used, and
      nothing else in the store changes. */
  method Token(db: Db, req: TokenRequest, now: int, s256: string -> string) returns (r: TokenReply)
    requires db.Valid()
    modifies db`grants
    ensures db.Valid()
    ensures CheckExchange(old(db.grants), req, now, s256).Rejected? ==>
              r == Refused(CheckExchange(old(db.grants), req, now, s256).err) && db.grants == old(db.grants)
    ensures CheckExchange(old(db.grants), req, now, s256).Accepted? ==>
              var g := old(db.grants)[req.code];
              && db.grants == old(db.grants)[req.code := g.(used := true)]
              && r == Issued(MintTokens(g, db.users[g.userId].email, now))
  {
    var outcome := CheckExchange(db.grants, req, now, s256);
    if outcome.Rejected? {
      return Refused(outcome.err);
    }
    var g := outcome.grant;
    db.grants := db.grants[req.code := g.(used := true)];
    r := Issued(MintTokens(g, db.users[g.userId].email, now));
  }

  /** The `scope` string of the response lists exactly the grant's scopes:
      splitting it on spaces gives them back, in order, whenever the grant
      holds at least one scope and none contains a space (as every grant the
      authorization endpoint stores does). */
  lemma MintedScopeRoundTrip(g: Grant, email: string, now: int)
    requires |g.scopes| >= 1
    requires forall s :: s in g.scopes ==> ' ' !in s
    ensures Split(MintTokens(g, email, now).scope, ' ') == g.scopes
  {
    SplitJoin(g.scopes, ' ');
  }

  /** Single use: once a code is redeemed, every later exchange of it is
      refused, as "already used" while the grant is live and as "expired"
      afterwards, never as an unknown code and never with tokens. */
  lemma RedeemedCodeIsRefused(grants: map<string, Grant>, req: TokenRequest, now: int, s256: string -> string,
                              later: TokenRequest, laterNow: int, s256': string -> string)
    requires CheckExchange(grants, req, now, s256).Accepted?
    requires later.code == req.code
    ensures var after := grants[req.code := grants[req.code].(used := true)];
            var r := CheckExchange(after, later, laterNow, s256');
            && r.Rejected?
            && r.err != UnknownCode
            && (RequestError(later).None? ==> r.err == (if grants[req.code].expiresAt < laterNow then ExpiredCode else UsedCode))
  {
  }

  /** Holding the access token for a redeemed grant gives exactly the granted
      scopes to the scope predicates. */
  lemma AccessTokenCarriesGrantedScopes(g: Grant, email: string, now: int, verify: Verifier, token: string, s: string)
    requires verify(token) == Some(MintTokens(g, email, now).accessToken.claims)
    ensures HasScope(verify, token, s) <==> s in g.scopes
  {
  }
}
