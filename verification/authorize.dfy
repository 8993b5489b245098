/** The OAuth 2.0 authorization endpoint (RFC 6749, sections 4.1.1 and
    4.1.2): the AI agent is the only client; a signed-in user is auto-approved
    and gets a ten-minute, single-use authorization code. */
module Authorize {
  import opened Common
  import opened OAuth
  import opened BankDb

  const ClientId := "ai-agent"
  const RedirectUri := "http://localhost:3000/auth/callback"
  const ValidScopes: seq<string> := ["payments", "read_balance", "read_transactions", "read_beneficiaries"]
  /** Ten minutes, in milliseconds. */
  const GrantLifetime := 10 * 60 * 1000

  /** The query parameters of `GET /api/auth/authorize` ("" where absent), and
      `query`, the parameters re-serialised by `searchParams.toString()`,
      which the login redirect carries back. */
  datatype AuthorizeRequest = AuthorizeRequest(
    clientId: string, redirectUri: string, responseType: string, scope: string,
    state: string, codeChallenge: string, codeChallengeMethod: string, query: string)

  /** Where the endpoint redirects the browser. */
  datatype Redirect =
    | LoginWithError(error: string, state: string)   // `/login?error=E&state=S`
    | LoginWithReturn(returnTo: string)               // `/login?redirect=R`
    | Callback(code: string, echoedState: Option<string>)   // the client's redirect URI
    | ServerError                                     // `/login?error=server_error`

  /** `filter(s => VALID_SCOPES.includes(s))`. */
  function FilterValid(parts: seq<string>): (r: seq<string>)
    ensures |r| <= |parts|
    ensures forall s :: s in r <==> s in parts && s in ValidScopes
  {
    if parts == [] then []
    else if parts[0] in ValidScopes then [parts[0]] + FilterValid(parts[1..])
    else FilterValid(parts[1..])
  }

  /** The filter keeps the order of the request: filtering a concatenation is
      concatenating the filtered halves. */
  lemma {:induction false} FilterValidAppend(a: seq<string>, b: seq<string>)
    ensures FilterValid(a + b) == FilterValid(a) + FilterValid(b)
    decreases |a|
  {
    if a == [] {
      assert a + b == b;
    } else {
      assert (a + b)[0] == a[0] && (a + b)[1..] == a[1..] + b;
      FilterValidAppend(a[1..], b);
    }
  }

  /** The granted scopes: the space-separated request filtered to the four
      known scopes; a missing `scope` grants nothing. */
  function RequestedScopes(scope: string): (r: seq<string>)
    ensures forall s :: s in r <==> s in ValidScopes && s in Split(scope, ' ')
    ensures forall s :: s in r ==> s != "" && ' ' !in s
  {
    if scope == "" then [] else FilterValid(Split(scope, ' '))
  }

  /** The parameter check of the endpoint: the first failing test, in the
      order response type, client, redirect URI, scope, names the error. */
  function ParameterError(req: AuthorizeRequest): (r: Option<string>)
    ensures r == Some("unsupported_response_type") <==> req.responseType != "code"
    ensures r == Some("invalid_client") <==> req.responseType == "code" && req.clientId != ClientId
    ensures r == Some("invalid_redirect_uri") <==>
              req.responseType == "code" && req.clientId == ClientId && req.redirectUri != RedirectUri
    ensures r == Some("invalid_scope") <==>
              req.responseType == "code" && req.clientId == ClientId && req.redirectUri == RedirectUri &&
              RequestedScopes(req.scope) == []
    ensures r.None? <==>
              req.responseType == "code" && req.clientId == ClientId && req.redirectUri == RedirectUri &&
              RequestedScopes(req.scope) != []
  {
    if req.responseType != "code" then Some("unsupported_response_type")
    else if req.clientId != ClientId then Some("invalid_client")
    else if req.redirectUri != RedirectUri then Some("invalid_redirect_uri")
    else if RequestedScopes(req.scope) == [] then Some("invalid_scope")
    else None
  }

  /** The user of the `token` cookie: a cookie that verifies and carries a
      userId; anything else means not signed in. */
  function SignedIn(cookie: Option<string>, verify: Verifier): (r: Option<string>)
    ensures r.Some? <==> cookie.Some? && verify(cookie.value).Some? && verify(cookie.value).value.userId != ""
    ensures r.Some? ==> r.value == verify(cookie.value).value.userId
  {
    if cookie.Some? && verify(cookie.value).Some? && verify(cookie.value).value.userId != "" then
      Some(verify(cookie.value).value.userId)
    else None
  }

  /** The stored grant for user `userId`, authorization code `code`, issued at
      `now`. */
  function NewGrant(userId: string, req: AuthorizeRequest, code: string, now: int): Grant
  {
    Grant(userId, ClientId, code, RequestedScopes(req.scope), RedirectUri,
          OrNull(req.codeChallenge), OrNull(req.codeChallengeMethod), now + GrantLifetime, false)
  }

  /** `GET /api/auth/authorize`. `code` is the fresh random authorization code.
      Storing the grant fails, and the endpoint answers `server_error`, when
      the code collides with a stored one (its unique key) or the user row does
      not exist (its foreign key). */
  method Authorize(db: Db, req: AuthorizeRequest, cookie: Option<string>, verify: Verifier,
                   now: int, code: string) returns (r: Redirect)
    requires db.Valid()
    modifies db`grants
    ensures db.Valid()
    ensures ParameterError(req).Some? ==>
              r == LoginWithError(ParameterError(req).value, req.state) && db.grants == old(db.grants)
    ensures ParameterError(req).None? && SignedIn(cookie, verify).None? ==>
              r == LoginWithReturn("/api/auth/authorize?" + req.query) && db.grants == old(db.grants)
    ensures ParameterError(req).None? && SignedIn(cookie, verify).Some? ==>
              var userId := SignedIn(cookie, verify).value;
              if userId in db.users && code !in old(db.grants) then
                && r == Callback(code, OrNull(req.state))
                && db.grants == old(db.grants)[code := NewGrant(userId, req, code, now)]
              else
                r == ServerError && db.grants == old(db.grants)
  {
    var error := ParameterError(req);
    if error.Some? {
      return LoginWithError(error.value, req.state);
    }
    var userId := SignedIn(cookie, verify);
    if userId.None? {
      return LoginWithReturn("/api/auth/authorize?" + req.query);
    }
    if userId.value !in db.users || code in db.grants {
      return ServerError;
    }
    db.grants := db.grants[code := NewGrant(userId.value, req, code, now)];
    r := Callback(code, OrNull(req.state));
  }

  /** What the client sees in `scope` of the token response is exactly the
      granted list: joining the granted scopes with spaces and splitting them
      again gives them back, because no granted scope is empty or holds a
      space. */
  lemma GrantedScopesRoundTrip(scope: string)
    requires RequestedScopes(scope) != []
    ensures Split(Join(RequestedScopes(scope), " "), ' ') == RequestedScopes(scope)
  {
    SplitJoin(RequestedScopes(scope), ' ');
  }
}
