/** Token claims and the scope predicates of apps/banking/lib/oauth.ts.
    Signature checking is not modelled: `jwt.verify` with the server secret and
    the current clock is a parameter of type `Verifier`, and `jwt.decode`
    (no signature check) one of type `Decoder`. */
module OAuth {
  import opened Common

  /** A token payload. `userId` and `typ` are "" when the claim is absent;
      `scopes` is None when the `scopes` claim is absent. */
  datatype Claims = Claims(
    userId: string,
    email: Option<string>,
    clientId: Option<string>,
    scopes: Option<seq<string>>,
    typ: string)

  /** `jwt.verify(token, JWT_SECRET)`: the claims of a token whose signature
      and expiry check out, None where the call throws. */
  type Verifier = string -> Option<Claims>

  /** `jwt.decode(token)`: the payload without any signature check. */
  type Decoder = string -> Option<Claims>

  /** An OAuth error body `{error, error_description}` with its HTTP status. */
  datatype OAuthError = OAuthError(status: int, error: string, description: string)

  const AccessTokenType := "oauth_access_token"
  const RefreshTokenType := "oauth_refresh_token"

  /** `decodeOAuthToken`: the verified claims, or None (the source's null)
      when verification throws. */
  function DecodeOAuthToken(verify: Verifier, token: string): Option<Claims>
  {
    verify(token)
  }

  /** `getScopes`: the scope list of a token that verifies, [] otherwise. */
  function GetScopes(verify: Verifier, token: string): (r: seq<string>)
    ensures DecodeOAuthToken(verify, token).None? ==> r == []
    ensures DecodeOAuthToken(verify, token).Some? && DecodeOAuthToken(verify, token).value.scopes.None? ==> r == []
    ensures DecodeOAuthToken(verify, token).Some? && DecodeOAuthToken(verify, token).value.scopes.Some? ==>
              r == DecodeOAuthToken(verify, token).value.scopes.value
  {
    match DecodeOAuthToken(verify, token)
    case None => []
    case Some(payload) => if payload.scopes.Some? then payload.scopes.value else []
  }

  /** `hasScope`: false when the token does not verify or has no scopes,
      otherwise whether the list includes `required`; in short, whether
      `required` is among the token's scopes. */
  function HasScope(verify: Verifier, token: string, required: string): (r: bool)
    ensures r <==> required in GetScopes(verify, token)
    ensures DecodeOAuthToken(verify, token).None? ==> !r
  {
    match DecodeOAuthToken(verify, token)
    case None => false
    case Some(payload) =>
      if payload.scopes.None? then false else required in payload.scopes.value
  }

  /** `requiredScopes.some(scope => scopes.includes(scope))`. */
  function SomeIncluded(required: seq<string>, scopes: seq<string>): (r: bool)
    ensures r <==> exists s :: s in required && s in scopes
  {
    if required == [] then false
    else required[0] in scopes || SomeIncluded(required[1..], scopes)
  }

  /** `hasAnyScope`: some required scope is held; never for an empty list. */
  function HasAnyScope(verify: Verifier, token: string, required: seq<string>): (r: bool)
    ensures r <==> exists s :: s in required && HasScope(verify, token, s)
    ensures required == [] ==> !r
  {
    match DecodeOAuthToken(verify, token)
    case None => false
    case Some(payload) =>
      if payload.scopes.None? then false else SomeIncluded(required, payload.scopes.value)
  }

  /** Asking for any of one scope is asking for that scope. */
  lemma HasAnyScopeOfOne(verify: Verifier, token: string, s: string)
    ensures HasAnyScope(verify, token, [s]) == HasScope(verify, token, s)
  {
  }
}
