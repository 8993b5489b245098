# VoxPe banking and voice-agent core, modelled in Dafny

VoxPe has two server applications. The banking app issues OAuth
authorization codes and tokens to the voice agent. It prices payment and
bill previews, records the user's consent and debits the account, and it
keeps beneficiaries and registrations. The voice agent classifies spoken
commands. It keeps a per-user rate-limit window and an audit log, screens
payments with fraud rules and explains its decisions. It also keeps the
user's security PINs and voice profiles.

The model follows the routes one by one:

- `Common`: optional values, JS string helpers (`toLowerCase`, `trim`,
  `split`, `join`, `includes`) and the lemmas relating split and join.
- `OAuth` and `BearerAuth`: token claims, scope predicates and the three
  ways a route recognises its caller.
- `BankDb`: the banking database (users, accounts, beneficiaries, grants,
  previews, transactions, bill previews, bill payments), held as a class.
- `Authorize`, `TokenExchange` and `Revoke`: the authorization-code grant
  of RFC 6749 section 4.1 with PKCE (RFC 7636 section 4.6), and
  revocation (RFC 7009 section 2.2).
- `PreviewPayment`, `ConfirmPreview`, `ExecuteFromPreview` and
  `ExecutePayment`: the payment pipeline and the direct execute route.
- `PreviewBill` and `ExecuteBill`: the bill payment pair.
- `Beneficiaries` and `Register`.
- `AgentDb`: the agent's database (audit log, PINs, voice profiles), held
  as a class.
- `Security`: the rate limiter (a class over its window map), the fraud
  rules, the audit upsert and the explanation text.
- `ProcessCommand`: the keyword classifier and the command route.
- `PinVerify`, `PinSet` and `VoiceEnroll`.

Each route is a method that `modifies` only the store fields the route
writes. It is specified by a pure function that decides the refusal, in
the route's own order and with the route's own status codes and messages.
Its `ensures` give the new store contents in terms of that function and the
old contents.

Modelling conventions:

- Money is in integer paise (₹1 = 100 paise). The ₹10,000 fee threshold is
  1_000_000, the ₹2.5 NEFT and ₹5 IMPS fees are 250 and 500, the ₹50,000
  limit is 5_000_000, and the ₹10,000 opening balance is 1_000_000.
- Time is integer milliseconds.
- A request field that is missing, null or empty is `""`. An amount of 0
  counts as missing, as it is falsy in the source.
- JWT signing and verification, bcrypt and SHA-256/base64url are
  function-typed parameters.
- Fresh ids, codes, consent tokens, bank references and hashes are
  parameters supplied by the caller.
- A failing database insert is a `bool` parameter, where the source can
  fail that way.
- The limiter's random sweep is an `Option<int>` parameter.

The rate limiter keeps one window per user, under the key
`"ratelimit:" + userId` (apps/ai-agent/lib/security.ts:16). Every call to
`checkRateLimit` shares it. Callers ask for different limits and window
lengths (10 or 30 a minute for commands, 3 per 30 s and 20 a minute in the
fraud check, apps/ai-agent/lib/security.ts:69,92), but there is only the
one window per user, and the window length is the one of whichever call
opened it. A payment command is therefore counted twice: once by the command limit
and once by the fraud check. As a result, the second payment command
within a minute already exceeds the 3-call burst limit
(`ProcessCommand.SecondPaymentCommandIsFlagged`).

## Model

| member | source | states |
|---|---|---|
| OAuth.GetScopes | apps/banking/lib/oauth.ts:38-41 | the scopes of a token that verifies and carries them; otherwise the empty list |
| OAuth.HasScope | apps/banking/lib/oauth.ts:22-28 | true iff the required scope is among the token's scopes; false whenever decoding fails |
| OAuth.HasAnyScope | apps/banking/lib/oauth.ts:30-36 | true iff some required scope is held; false for an empty required list |
| OAuth.HasAnyScopeOfOne | apps/banking/lib/oauth.ts:22-36 | `hasAnyScope(t, [s])` equals `hasScope(t, s)` |
| BearerAuth.BearerToken | apps/banking/app/api/payments/preview/route.ts:6-10 | a token is found iff the header starts with "Bearer ", and the header is the prefix followed by that token |
| BearerAuth.ScopedUserId | apps/banking/app/api/payments/preview/route.ts:5-27 | the caller is the verified token's userId; an oauth access token must also hold the route's scope, and any other verified token passes unchecked |
| BearerAuth.VerifiedUserId | apps/banking/app/api/payments/execute/route.ts:7-31 | the caller is the userId of a bearer token that verifies, with no scope check |
| BearerAuth.LenientUserId | apps/ai-agent/app/api/pin/verify/route.ts:8-29 | a verified token's userId; when verification fails, exactly the userId of the unverified payload; never an empty id |
| BankDb.TransactionFor | apps/banking/app/api/payments/execute-from-preview/route.ts:50-52 | a transaction referencing the preview is found iff one exists, and the one found references it |
| BankDb.BillPaymentFor | apps/banking/app/api/bills/execute-from-preview/route.ts:40-42 | a bill payment for the preview is found iff one exists, and the one found references it |
| BankDb.AppendKeepsPreviewLinksUnique | apps/banking/app/api/payments/execute-from-preview/route.ts:50-62 | appending a transaction for a preview that has none keeps every preview referenced by at most one transaction |
| BankDb.AppendKeepsBillLinksUnique | apps/banking/app/api/bills/execute-from-preview/route.ts:40-49 | appending a bill payment for a preview that has none keeps every bill preview paid at most once |
| Authorize.FilterValid | apps/banking/app/api/auth/authorize/route.ts:54-56 | keeps exactly the parts that are one of the four valid scopes, never lengthening the list |
| Authorize.FilterValidAppend | apps/banking/app/api/auth/authorize/route.ts:54-56 | filtering keeps the requested order: filtering a concatenation concatenates the filtered parts |
| Authorize.RequestedScopes | apps/banking/app/api/auth/authorize/route.ts:19-56 | a scope is granted iff it is one of the valid scopes and a space-separated part of the request; unknown scopes are dropped |
| Authorize.ParameterError | apps/banking/app/api/auth/authorize/route.ts:35-59 | the first failing check decides the error: response_type, then client_id, then redirect_uri, then an empty scope set; none iff all four pass |
| Authorize.SignedIn | apps/banking/app/api/auth/authorize/route.ts:74-98 | the user is signed in iff the session cookie verifies to a userId |
| Authorize.Authorize | apps/banking/app/api/auth/authorize/route.ts:21-212 | a parameter error redirects to login with the error and state; without a session, it redirects to login keeping the original query; otherwise exactly one 10-minute grant is stored and the callback carries the code and the state when one was given; no grant is stored on any other path |
| Authorize.GrantedScopesRoundTrip | apps/banking/app/api/auth/authorize/route.ts:54-59 | the scopes granted here satisfy what the token reply needs: joined by spaces (as the token endpoint's `scope` does) and split again, they give back the granted list |
| TokenExchange.RequestError | apps/banking/app/api/auth/token/route.ts:50-82 | grant_type, then client_id, then redirect_uri, then a missing code, each with its own status and error; none iff all pass |
| TokenExchange.PkceError | apps/banking/app/api/auth/token/route.ts:123-149 | no check without a stored challenge or with an empty one; a missing verifier is invalid_request; S256 compares the hashed verifier and any other method the plain one; a mismatch is invalid_grant |
| TokenExchange.CheckExchange | apps/banking/app/api/auth/token/route.ts:50-149 | request errors first, then unknown code, then expired before used, then PKCE, whose own error is the reply; accepted iff every check passes, and then the grant is the stored one |
| TokenExchange.MintTokens | apps/banking/app/api/auth/token/route.ts:161-194 | the access token carries the grant's user, the owner's email, the client id and the granted scopes, and lasts 24 h; the refresh token carries the user and client id but no scopes or email, and lasts 30 d; the reply is Bearer, 86400 s, with the scopes joined by spaces |
| TokenExchange.Token | apps/banking/app/api/auth/token/route.ts:37-196 | a rejection leaves the grants unchanged; success marks only that grant used and returns the minted tokens |
| TokenExchange.MintedScopeRoundTrip | apps/banking/app/api/auth/token/route.ts:188-194 | splitting the reply's scope string on spaces gives back the grant's scopes |
| TokenExchange.RedeemedCodeIsRefused | apps/banking/app/api/auth/token/route.ts:103-158 | once a code is redeemed, any later exchange of it is refused, as expired or already used, and never as unknown |
| TokenExchange.AccessTokenCarriesGrantedScopes | apps/banking/app/api/auth/token/route.ts:161-171 | a minted access token passes a scope check iff the scope was granted |
| Revoke.Revoke | apps/banking/app/api/auth/revoke/route.ts:15-50 | an empty token gives 400 invalid_request; any other token is revoked, with the success message iff it verifies as an oauth token, the invalid message iff it does not verify, and no message otherwise |
| PreviewPayment.Charges | apps/banking/app/api/payments/preview/route.ts:109-115 | the fee is 250 paise for NEFT and 500 for IMPS above ₹10,000 (strictly), and nothing otherwise |
| PreviewPayment.CheckPaymentRules | apps/banking/app/api/payments/preview/route.ts:30-53 | at most one reason; allowed iff there is none, iff the balance covers the amount and the amount is within ₹50,000; insufficient balance is reported before the limit |
| PreviewPayment.NewPreview | apps/banking/app/api/payments/preview/route.ts:109-143 | the preview keeps the request's account, beneficiary, method and amount; the final debit is the amount plus charges; rules are run on the final debit; the preview is PENDING, without consent, for 15 minutes |
| PreviewPayment.PreviewRefusal | apps/banking/app/api/payments/preview/route.ts:55-103 | 401, then 400 missing field, then 404 account (the caller's and ACTIVE), then 404 beneficiary (the caller's and active); none iff all pass |
| PreviewPayment.CreatePreview | apps/banking/app/api/payments/preview/route.ts:55-143 | a refusal stores nothing; otherwise the preview is stored whatever the rules decide and the reply echoes its computed values |
| PreviewPayment.AllowedPreviewFits | apps/banking/app/api/payments/preview/route.ts:30-119 | an allowed preview's final debit is within the balance and the ₹50,000 limit |
| PreviewPayment.NegativeAmountIsAllowed | apps/banking/app/api/payments/preview/route.ts:68-119 | a negative amount passes the truthiness check and the rules with no charge |
| ConfirmPreview.ConfirmRefusal | apps/banking/app/api/payments/confirm-preview/route.ts:29-85 | 401, then 400 missing fields, then 404 unless a PENDING preview of the caller, then 400 expired; none iff all pass |
| ConfirmPreview.Confirm | apps/banking/app/api/payments/confirm-preview/route.ts:29-100 | a refusal changes nothing; success sets exactly the consent token and CONFIRMED on that preview |
| ConfirmPreview.ConfirmIsOneShot | apps/banking/app/api/payments/confirm-preview/route.ts:56-77 | confirming the same preview again gives 404 |
| ConfirmPreview.RefusedPreviewCanBeConfirmed | apps/banking/app/api/payments/confirm-preview/route.ts:56-100 | a preview whose rules refused the payment can still be confirmed |
| ExecuteFromPreview.Decide | apps/banking/app/api/payments/execute-from-preview/route.ts:29-101 | 401, 400 missing fields, then the replay of an existing transaction before any ownership or consent check, then 400 invalid consent, expired, insufficient balance; a debit only within the balance |
| ExecuteFromPreview.NewTransaction | apps/banking/app/api/payments/execute-from-preview/route.ts:104-134 | the transaction links the preview, takes its account, beneficiary and method, records the requested amount, uses the supplied bank reference or a generated one, and is SUCCESS iff the request says so |
| ExecuteFromPreview.Execute | apps/banking/app/api/payments/execute-from-preview/route.ts:29-137 | refusals and replays change nothing; a debit lowers the balance by the final amount and appends the transaction together, or neither when the insert fails |
| ExecuteFromPreview.ExecutionIsReplayed | apps/banking/app/api/payments/execute-from-preview/route.ts:50-62 | after a transaction for the preview is recorded, executing it again returns that transaction |
| ExecuteFromPreview.FailedPaymentIsDebited | apps/banking/app/api/payments/execute-from-preview/route.ts:104-134 | a payment reported as failed is recorded FAILED and still debited |
| ExecutePayment.DirectTransaction | apps/banking/app/api/payments/execute/route.ts:89-101 | the transaction is SUCCESS, by USER_UI on WEB, with the request's account, beneficiary, method and amount, the given id and bank reference, and no preview link |
| ExecutePayment.NotAllowedMessage | apps/banking/app/api/payments/execute/route.ts:47-52 | the first rule reason, or "Payment not allowed" when there is no preview |
| ExecutePayment.CallerIsVerified | apps/banking/app/api/payments/execute/route.ts:7-31 | the preview's caller check agrees with this route's verification, with no scope check |
| ExecutePayment.Execute | apps/banking/app/api/payments/execute/route.ts:22-123 | 401 and preview refusals change nothing; a disallowed preview is stored and gives 400; an allowed one debits the balance, then records the transaction and confirms the preview; a failing insert leaves the debit in place |
| ExecutePayment.Settle | apps/banking/app/api/payments/execute/route.ts:81-107 | the balance write happens first and separately; then either the transaction is appended and the preview confirmed, or nothing else changes |
| PreviewBill.BillRefusal | apps/banking/app/api/bills/preview/route.ts:5-32 | 401, then 400 missing field, then 404 account not the caller's (no ACTIVE check), then 400 iff the amount exceeds the balance; none iff all pass |
| PreviewBill.NewBillPreview | apps/banking/app/api/bills/preview/route.ts:35-51 | the preview keeps the caller, account, bill type, biller and consumer number; no charges, the final debit is the amount, PENDING with the consent token, for 15 minutes |
| PreviewBill.CreateBillPreview | apps/banking/app/api/bills/preview/route.ts:5-64 | a refusal stores nothing (the balance one reports the failed rules); success stores the preview and always reports it allowed, echoing the consent token |
| PreviewBill.WholeBalanceCanBePaid | apps/banking/app/api/bills/preview/route.ts:26-32 | a bill of exactly the balance is accepted; a larger one is refused |
| ExecuteBill.DecideBill | apps/banking/app/api/bills/execute-from-preview/route.ts:5-49 | 401, 400, 404 not the caller's, 403 consent, 400 expired, 400 not PENDING, then the replay of an existing payment, else the debit; a replay or debit only for a PENDING preview |
| ExecuteBill.NewBillPayment | apps/banking/app/api/bills/execute-from-preview/route.ts:62-75 | the payment has the given id and bank reference, links the preview, copies its account, bill type, biller, consumer number and amount, and is SUCCESS |
| ExecuteBill.Execute | apps/banking/app/api/bills/execute-from-preview/route.ts:5-99 | refusals and replays change nothing; a debit lowers the balance, records the payment and confirms the preview together, or rolls back all three if the balance would go negative |
| ExecuteBill.ReExecutionIsRefused | apps/banking/app/api/bills/execute-from-preview/route.ts:35-85 | executing an executed bill preview again gives 400 "already processed" rather than the earlier payment |
| Beneficiaries.ActiveBeneficiaries | apps/banking/app/api/beneficiaries/route.ts:40-53 | only active rows, never more than are stored |
| Beneficiaries.ActiveBeneficiariesMembers | apps/banking/app/api/beneficiaries/route.ts:40-53 | the list holds exactly the caller's active beneficiaries |
| Beneficiaries.ActiveBeneficiariesAppend | apps/banking/app/api/beneficiaries/route.ts:40-53 | the listing keeps store order |
| Beneficiaries.List | apps/banking/app/api/beneficiaries/route.ts:29-62 | 401 iff the caller check fails (oauth tokens need read_beneficiaries); otherwise the caller's active beneficiaries |
| Beneficiaries.Add | apps/banking/app/api/beneficiaries/route.ts:65-103 | 401, then 400 unless a name and a UPI id or an account number with IFSC; otherwise exactly one beneficiary of the caller is appended, absent fields null |
| Beneficiaries.AddedBeneficiaryIsListed | apps/banking/app/api/beneficiaries/route.ts:40-93 | a beneficiary just added appears at the end of its owner's list |
| Register.EmailCheckMatchesShape | apps/banking/app/api/auth/register/route.ts:18-24 | the email check accepts exactly the strings of the shape text "@" domain, where both have no space or "@" and the domain has a "." with something on both sides |
| Register.FormError | apps/banking/app/api/auth/register/route.ts:10-41 | all fields present, then email shape, then a 10-digit phone, then a password of at least 6; none iff all pass |
| Register.Register | apps/banking/app/api/auth/register/route.ts:10-98 | a form error or a duplicate email, phone or account number creates nothing; otherwise exactly one user and one ACTIVE SAVINGS account with ₹10,000 and IFSC DUMMY0001234 |
| Register.RegistrationKeepsEmailsDistinct | apps/banking/app/api/auth/register/route.ts:44-55 | the duplicate check keeps every email registered once |
| AgentDb.FirstPinOf | apps/ai-agent/app/api/pin/verify/route.ts:94-96 | some PIN of the user is found iff the user has one, and it is theirs |
| AgentDb.PinIndex | apps/ai-agent/app/api/pin/verify/route.ts:83-90 | the position of a row with the (user, account) key is found iff such a row exists |
| Security.Counted | apps/ai-agent/lib/security.ts:19-31 | a new window of `windowMs` holding one call when none exists or it ended before now; otherwise one more call with the existing end kept |
| Security.Swept | apps/ai-agent/lib/security.ts:35-42 | exactly the windows not yet ended survive, unchanged |
| Security.RateLimiter.CheckRateLimit | apps/ai-agent/lib/security.ts:11-49 | allowed iff the count after this call is within the limit; remaining is max(0, limit − count); the windows are the counted and possibly swept map |
| Security.RateLimiter.Sweep | apps/ai-agent/lib/security.ts:35-42 | the loop deletes exactly the ended windows |
| Security.CallsInsideWindow | apps/ai-agent/lib/security.ts:19-31 | calls before a window ends each add one to its count and keep its end |
| Security.WindowCountsEveryCall | apps/ai-agent/lib/security.ts:19-31 | within one window the count is the number of calls |
| Security.CallAfterLimitIsRefused | apps/ai-agent/lib/security.ts:29-33 | the call after `max` calls in a window is refused with nothing remaining |
| Security.CallsAppend | apps/ai-agent/lib/security.ts:19-31 | a series of calls is its first part followed by one more counted call |
| Security.SweepKeepsLiveWindows | apps/ai-agent/lib/security.ts:35-42 | a sweep keeps the window just counted, unchanged, iff the sweep time is not after that window's end; a sweep 1 ms after a window that ends at the counting time deletes it |
| Security.AmountReasons | apps/ai-agent/lib/security.ts:59-67 | a present amount over ₹50,000 or below zero gives its one reason; a missing or zero amount gives none |
| Security.FraudReasons | apps/ai-agent/lib/security.ts:58-101 | for payments: the amount reasons first, the burst reason iff the shared window passes 3 calls, the attempts reason iff 5 or more payment entries in 2 minutes, and nothing else (the count of reasons is exactly the number of rules that fire); otherwise only the slow-down reason iff it passes 20 |
| Security.DetectFraud | apps/ai-agent/lib/security.ts:51-102 | fraudulent iff there is a reason; the limiter counts the call on the shared window |
| Security.IntentJsonNamesAction | apps/ai-agent/lib/security.ts:119-123 | the stored intent text contains the action |
| Security.LoggedEntry | apps/ai-agent/lib/security.ts:114-137 | the entry keeps the user, input and intent text; an update keeps the creation time, a create uses now |
| Security.LogAIAction | apps/ai-agent/lib/security.ts:104-140 | returns the provided trace id or a fresh one, and upserts only that entry |
| Security.LoggedPaymentCounts | apps/ai-agent/lib/security.ts:74-140 | a logged payment command counts toward the recent-attempts rule for 2 minutes |
| Security.ExplainAIDecision | apps/ai-agent/lib/security.ts:142-166 | always starts "I understood your request as: <intent>. "; for payments it names the method and ends with the allowed sentence or the reasons joined by ", " |
| Security.ExplainMentionsMethod | apps/ai-agent/lib/security.ts:149-150 | text placed in the middle of the explanation is contained in it |
| ProcessCommand.MethodNamed | apps/ai-agent/app/api/ai/process-command/route.ts:172-175 | IMPS iff the text names imps, else NEFT iff it names neft, else UPI |
| ProcessCommand.PaymentMentionsPay | apps/ai-agent/app/api/ai/process-command/route.ts:146-209 | any text containing "payment" contains "pay" |
| ProcessCommand.ParseIntentFallback | apps/ai-agent/app/api/ai/process-command/route.ts:142-217 | INR and NOW always; payment words win, then balance words, then history words, else UNKNOWN; only a payment carries amount, payee and method |
| ProcessCommand.PaymentCommandsArePayments | apps/ai-agent/app/api/ai/process-command/route.ts:146-209 | a command mentioning "payment" is always a payment, so that clause of the transactions branch is unreachable |
| ProcessCommand.EffectiveUserId | apps/ai-agent/app/api/ai/process-command/route.ts:249-275 | the verified userId, else the unverified decoded userId, else "demo-user-id"; never empty |
| ProcessCommand.RateLimitConfig | apps/ai-agent/app/api/ai/process-command/route.ts:332-335 | 10 per 60000 ms for payments, 30 per 60000 ms otherwise |
| ProcessCommand.PaymentGate | apps/ai-agent/app/api/ai/process-command/route.ts:404-416 | passes iff amount and payee are present and 0 < amount ≤ ₹50,000; the details message iff one is missing |
| ProcessCommand.FirstNamed | apps/ai-agent/app/api/ai/process-command/route.ts:449-451 | the first beneficiary whose lower-cased name contains the lower-cased payee, or none iff no name does |
| ProcessCommand.CommandDecision | apps/ai-agent/app/api/ai/process-command/route.ts:394-469 | 401 without a bearer header; other intents are answered; a payment the gate refuses gets the gate's message, and one without an account the no-account message; otherwise a preview is requested iff the payee names a beneficiary, for the parsed amount, from the first account, to the first beneficiary named, with the method defaulting to UPI; a payee naming none gets the needs-beneficiary reply with its name, amount and method |
| ProcessCommand.Process | apps/ai-agent/app/api/ai/process-command/route.ts:234-469 | an empty command changes nothing; otherwise the call is counted, refused when over the limit, blocked on fraud for payments, else decided; exactly one audit entry is logged under the trace id |
| ProcessCommand.SecondPaymentCommandIsFlagged | apps/ai-agent/lib/security.ts:16-69 | because both limits share one window, a second payment command within a minute trips the burst rule |
| ProcessCommand.GateAdmitsWhatBankRefuses | apps/ai-agent/app/api/ai/process-command/route.ts:404-416 | a ₹50,000 IMPS payment passes the agent's gate but its preview is refused for its fee |
| PinVerify.TargetAccount | apps/ai-agent/app/api/pin/verify/route.ts:77-80 | "dummy" stands for "default-account"; every other id is itself |
| PinVerify.PinRow | apps/ai-agent/app/api/pin/verify/route.ts:83-90 | the row for the (user, account) key is found iff it exists |
| PinVerify.VerifyPin | apps/ai-agent/app/api/pin/verify/route.ts:33-130 | 401, then the probe, then 400 "PIN must be 4 digits" iff the PIN is not four digits, then 400 "Account ID is required" iff the account is missing; then the key's PIN or the user's first PIN is compared, 404 when none; verified iff the PIN matches the compared hash (that of the pair, or else the first PIN of the user); a verified PIN matches a PIN of the user |
| PinVerify.ProbeNeverVerifies | apps/ai-agent/app/api/pin/verify/route.ts:44-60 | the probe never returns verified |
| PinVerify.DummyIsDefaultAccount | apps/ai-agent/app/api/pin/verify/route.ts:77-80 | verifying for "dummy" is verifying for "default-account" |
| PinSet.SetPinRefusal | apps/ai-agent/app/api/pin/set/route.ts:33-70 | 401, then 400 format, then 400 account, then 401 iff old_pin was claimed and the user has no PIN or the old PIN does not match the user's first stored PIN; any other verification is trusted |
| PinSet.UpsertPin | apps/ai-agent/app/api/pin/set/route.ts:84-100 | the key's row holds the new hash afterwards; the store grows by one row iff the key was absent; every other row is unchanged and keys stay unique |
| PinSet.SetPin | apps/ai-agent/app/api/pin/set/route.ts:33-105 | a refusal changes nothing; success upserts the PIN under the mapped account |
| PinSet.SetThenVerify | apps/ai-agent/app/api/pin/set/route.ts:76-100 | after setting a PIN, verifying for that account compares against the new hash |
| PinSet.SetLeavesOtherKeys | apps/ai-agent/app/api/pin/set/route.ts:84-100 | setting one key's PIN leaves every other key's row unchanged |
| VoiceEnroll.EnrollRefusal | apps/ai-agent/app/api/voice/enroll/route.ts:28-69 | 401, then 400 embedding; a first enrolment is then accepted; re-enrolment gives 403 iff no PIN is sent, 400 iff the user has no stored PIN, 401 iff the PIN does not match the user's first stored PIN, and is accepted otherwise |
| VoiceEnroll.EnrolledProfile | apps/ai-agent/app/api/voice/enroll/route.ts:72-82 | the profile holds the new embedding updated now, keeping its creation time on re-enrolment |
| VoiceEnroll.Enroll | apps/ai-agent/app/api/voice/enroll/route.ts:28-92 | a refusal changes nothing; success upserts only this user's profile |
| VoiceEnroll.FirstEnrolmentNeedsNoPin | apps/ai-agent/app/api/voice/enroll/route.ts:42-82 | a first enrolment is accepted without a PIN |
| VoiceEnroll.CeilDays | apps/ai-agent/app/api/voice/enroll/route.ts:115 | the number of whole days rounded up |
| VoiceEnroll.Status | apps/ai-agent/app/api/voice/enroll/route.ts:94-128 | 401, not enrolled iff no profile; otherwise expiry 90 days after the update, expired iff now is past it, and a day count that is never negative, zero once expired, and otherwise the days left rounded up |
| VoiceEnroll.FreshEnrolmentHasNinetyDays | apps/ai-agent/app/api/voice/enroll/route.ts:72-115 | right after enrolling, the profile is live with 90 days left |
| VoiceEnroll.DaysLeftBounded | apps/ai-agent/app/api/voice/enroll/route.ts:110-115 | once updated, a profile never reports more than 90 days left |

## Left out

- The UI and pages, the browser-automation worker and client, the HTTP clients and proxies of the agent, the confirm-payment orchestration route, create-beneficiary, save-biller, verify-password, login, bills history and `getTransparentRules`. They are rendering, network plumbing or single pass-through queries.
- The LLM `parseIntent`, the regular expressions that extract amount and payee (parameters of `ParseIntentFallback`), cosine similarity and the voice verify route. They are foreign or floating point.
- JWT, bcrypt and SHA-256 are parameters, and random ids and hashes are values supplied by the caller.
- `verifyAuth`, used by the bill routes, is not part of this model. Its outcome is an `Option` user id.
- Concurrency: Prisma transactions are single atomic method bodies. Races between requests are not modelled.
- Database uniqueness constraints are not modelled, with two exceptions: `Register.Register` answers a clash on the generated account number with 409, as the route's P2002 branch does, and `Authorize.Authorize` answers a clash on the generated code with the server-error redirect.
- Failed `request.json()` parses and the generic 500 catch-alls are not modelled. A failing insert is modelled where the surrounding logic depends on it.
- JSON serialisation: stored scopes and rule results are values. The audit `result` column is not stored. The intent text is built with the metadata already serialised.
- The 429 reply's reset-time formatting and the reply text composed after the bank calls in the command route are not modelled. The command route's write-back to the audit entry, which sets the preview id and replaces `parsedIntentJson` with the serialised parsed intent, is not modelled.
- The voice biometric step of the command route is not modelled.
- `ExecutePayment.Execute`: its branches that re-check the account and balance after the preview, and the negative-balance check after the debit, cannot be reached once the preview is allowed, so they are not separate outcomes.
- `Register.Register`: password length counts characters, where JavaScript counts UTF-16 units. `ToLower` folds ASCII letters only.
- `PinSet.SetPinRefusal`: an absent old PIN with `verifiedVia` "old_pin" makes bcrypt throw, which the source answers with 500. The model answers 401.
- `Beneficiaries.Add`: `isActive` is stored as true, taken as the database default.
- `findFirst` without an ordering returns the first row in store order.
- `VoiceEnroll.Status`: 90 days is 90 × 86,400,000 ms, ignoring daylight-saving changes.
- `Security.RateLimiter.CheckRateLimit`: the 1% chance of a sweep is a parameter, the sweep time, rather than a random draw.
