/** The OAuth 2.0 revocation endpoint (RFC 7009, section 2.2). Nothing is
    stored: a revoked token stays valid until it expires, and every non-empty
    token is reported revoked. */
module Revoke {
  import opened OAuth

  datatype RevokeReply =
    | Revoked(message: string)     // 200 `{revoked: true, message}`; "" when no message is sent
    | RevokeRefused(err: OAuthError)

  const RevokedMessage := "Token revoked successfully"
  const InvalidMessage := "Token invalid or already expired"

  /** `POST /api/auth/revoke` with body `{token}` ("" when absent). */
  function Revoke(token: string, verify: Verifier): (r: RevokeReply)
    ensures r.RevokeRefused? <==> token == ""
    ensures r.RevokeRefused? ==> r.err == OAuthError(400, "invalid_request", "Token is required")
    ensures r == Revoked(RevokedMessage) <==>
              token != "" && verify(token).Some? &&
              (verify(token).value.typ == AccessTokenType || verify(token).value.typ == RefreshTokenType)
    ensures r == Revoked(InvalidMessage) <==> token != "" && verify(token).None?
    ensures r == Revoked("") <==>
              token != "" && verify(token).Some? &&
              verify(token).value.typ != AccessTokenType && verify(token).value.typ != RefreshTokenType
  {
    if token == "" then RevokeRefused(OAuthError(400, "invalid_request", "Token is required"))
    else match verify(token)
      case None => Revoked(InvalidMessage)
      case Some(claims) =>
        if claims.typ == AccessTokenType || claims.typ == RefreshTokenType then Revoked(RevokedMessage)
        else Revoked("")
  }
}
