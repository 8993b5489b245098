/** How each route turns its `Authorization` header into a user id. Three
    variants exist in the source: the scope-checking one of the banking
    payment and beneficiary routes, the verify-only one of the direct execute
    route and the agent's command route, and the lenient one of the PIN and
    voice routes that falls back to an unsigned decode. */
module BearerAuth {
  import opened Common
  import opened OAuth

  const BearerPrefix := "Bearer "

  /** `authHeader?.startsWith("Bearer ") ? authHeader.substring(7) : null`. */
  function BearerToken(header: string): (r: Option<string>)
    ensures r.Some? <==> StartsWith(header, BearerPrefix)
    ensures r.Some? ==> header == BearerPrefix + r.value
  {
    if StartsWith(header, BearerPrefix) then
      assert header == header[..7] + header[7..];
      Some(header[7..])
    else None
  }

  /** `getUserIdFromToken` of the banking routes: a verified token with a
      non-empty userId passes, except that an OAuth access token must also
      hold `requiredScope`; any other verified token (a login JWT) passes
      without a scope check. */
  function ScopedUserId(header: string, verify: Verifier, requiredScope: string): (r: Option<string>)
    ensures r.Some? <==>
      && BearerToken(header).Some?
      && verify(BearerToken(header).value).Some?
      && verify(BearerToken(header).value).value.userId != ""
      && (verify(BearerToken(header).value).value.typ == AccessTokenType ==>
            requiredScope in GetScopes(verify, BearerToken(header).value))
    ensures r.Some? ==> r.value == verify(BearerToken(header).value).value.userId
  {
    match BearerToken(header)
    case None => None
    case Some(token) =>
      var payload := DecodeOAuthToken(verify, token);
      if payload.Some? && payload.value.typ == AccessTokenType && !HasScope(verify, token, requiredScope) then None
      else if payload.Some? && payload.value.userId != "" then Some(payload.value.userId)
      else None
  }

  /** `jwt.verify(token).userId` with no scope check; a missing userId counts
      as no user. */
  function VerifiedUserId(header: string, verify: Verifier): (r: Option<string>)
    ensures r.Some? <==>
      BearerToken(header).Some? && verify(BearerToken(header).value).Some? &&
      verify(BearerToken(header).value).value.userId != ""
    ensures r.Some? ==> r.value == verify(BearerToken(header).value).value.userId
  {
    match BearerToken(header)
    case None => None
    case Some(token) =>
      if verify(token).Some? && verify(token).value.userId != "" then Some(verify(token).value.userId) else None
  }

  /** `getUserIdFromRequest` of the PIN and voice routes: the verified userId
      when verification succeeds, and only when it throws the userId of the
      unsigned payload. */
  function LenientUserId(header: string, verify: Verifier, decode: Decoder): (r: Option<string>)
    ensures r.Some? ==> r.value != "" && BearerToken(header).Some?
    ensures BearerToken(header).Some? && verify(BearerToken(header).value).Some? ==>
              r == VerifiedUserId(header, verify)
    ensures BearerToken(header).Some? && verify(BearerToken(header).value).None? ==>
              (r.Some? <==> decode(BearerToken(header).value).Some? && decode(BearerToken(header).value).value.userId != "")
    ensures BearerToken(header).Some? && verify(BearerToken(header).value).None? && r.Some? ==>
              r.value == decode(BearerToken(header).value).value.userId
  {
    match BearerToken(header)
    case None => None
    case Some(token) =>
      match verify(token)
      case Some(claims) => if claims.userId != "" then Some(claims.userId) else None
      case None =>
        match decode(token)
        case Some(claims) => if claims.userId != "" then Some(claims.userId) else None
        case None => None
  }
}
