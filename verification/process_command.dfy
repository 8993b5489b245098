/** `POST /api/ai/process-command` of the agent: classifies a spoken or typed
    command, identifies the user, applies the rate limit and fraud rules,
    logs the action and, for a payment, checks the amount and picks the
    beneficiary for which a preview is requested from the bank. */
module ProcessCommand {
  import opened Common
  import opened OAuth
  import opened BearerAuth
  import opened AgentDb
  import opened Security
  import Beneficiaries
  import PreviewPayment

  datatype Intent = MakePayment | CheckBalance | ShowTransactions | Unknown

  function IntentName(i: Intent): string {
    match i
    case MakePayment => "MAKE_PAYMENT"
    case CheckBalance => "CHECK_BALANCE"
    case ShowTransactions => "SHOW_TRANSACTIONS"
    case Unknown => "UNKNOWN"
  }

  /** What the parser returns. `amount` is in paise; None where absent. */
  datatype ParsedIntent = ParsedIntent(
    intent: Intent, amount: Option<int>, currency: string, payeeName: Option<string>,
    paymentMethod: Option<string>, schedule: string)

  /** The text the keyword rules look at: lower-cased, then trimmed. */
  function Normalised(command: string): string {
    Trim(ToLower(command))
  }

  predicate PaymentWords(s: string) {
    Contains(s, "pay") || Contains(s, "send") || Contains(s, "transfer") || Contains(s, "give") || Contains(s, "money")
  }

  predicate BalanceWords(s: string) {
    Contains(s, "balance") || Contains(s, "how much") || Contains(s, "account balance")
  }

  predicate HistoryWords(s: string) {
    Contains(s, "transaction") || Contains(s, "history") || Contains(s, "statement")
  }

  /** IMPS if the text names it, else NEFT if it names that, else UPI. */
  function MethodNamed(s: string): (r: string)
    ensures r == "IMPS" <==> Contains(s, "imps")
    ensures r == "NEFT" <==> !Contains(s, "imps") && Contains(s, "neft")
    ensures r == "UPI" <==> !Contains(s, "imps") && !Contains(s, "neft")
  {
    if Contains(s, "imps") then "IMPS" else if Contains(s, "neft") then "NEFT" else "UPI"
  }

  /** A text that mentions "payment" mentions "pay". */
  lemma PaymentMentionsPay(s: string)
    ensures Contains(s, "payment") ==> Contains(s, "pay")
  {
    if Contains(s, "payment") {
      assert StartsWith("payment", "pay");
      ContainsPrefix(s, "payment", "pay");
    }
  }

  /** `parseIntentFallback`, the keyword parser used when no language model
      answers. The regular expressions that pull the amount and the payee out
      of the original command are the parameters `amountIn` and `payeeIn`. */
  function ParseIntentFallback(command: string, amountIn: string -> Option<int>,
                               payeeIn: string -> Option<string>): (r: ParsedIntent)
    ensures r.currency == "INR" && r.schedule == "NOW"
    ensures r.intent == MakePayment <==> PaymentWords(Normalised(command))
    ensures r.intent == CheckBalance <==> !PaymentWords(Normalised(command)) && BalanceWords(Normalised(command))
    ensures r.intent == ShowTransactions <==>
              !PaymentWords(Normalised(command)) && !BalanceWords(Normalised(command)) && HistoryWords(Normalised(command))
    ensures r.intent == MakePayment ==>
              && r.amount == amountIn(command) && r.payeeName == payeeIn(command)
              && r.paymentMethod == Some(MethodNamed(Normalised(command)))
    ensures r.intent != MakePayment ==> r.amount.None? && r.payeeName.None? && r.paymentMethod.None?
  {
    var lower := Normalised(command);
    PaymentMentionsPay(lower);
    if PaymentWords(lower) then
      ParsedIntent(MakePayment, amountIn(command), "INR", payeeIn(command), Some(MethodNamed(lower)), "NOW")
    else if BalanceWords(lower) then ParsedIntent(CheckBalance, None, "INR", None, None, "NOW")
    else if Contains(lower, "transaction") || Contains(lower, "history")
            || (Contains(lower, "payment") && !Contains(lower, "pay")) || Contains(lower, "statement") then
      ParsedIntent(ShowTransactions, None, "INR", None, None, "NOW")
    else ParsedIntent(Unknown, None, "INR", None, None, "NOW")
  }

  /** Any command that mentions "payment" is read as a payment: the
      transactions rule's "payment" clause can never fire. */
  lemma PaymentCommandsArePayments(command: string, amountIn: string -> Option<int>, payeeIn: string -> Option<string>)
    requires Contains(Normalised(command), "payment")
    ensures ParseIntentFallback(command, amountIn, payeeIn).intent == MakePayment
  {
    PaymentMentionsPay(Normalised(command));
  }

  const DemoUserId := "demo-user-id"

  /** The user the command runs as: the verified token's user; failing that
      the user named in the token's unverified payload; failing that the
      demo user. */
  function EffectiveUserId(header: string, verify: Verifier, decode: Decoder): (r: string)
    ensures VerifiedUserId(header, verify).Some? ==> r == VerifiedUserId(header, verify).value
    ensures VerifiedUserId(header, verify).None? && BearerToken(header).Some? &&
            decode(BearerToken(header).value).Some? && decode(BearerToken(header).value).value.userId != "" ==>
              r == decode(BearerToken(header).value).value.userId
    ensures VerifiedUserId(header, verify).None? &&
            (BearerToken(header).None? || decode(BearerToken(header).value).None? ||
             decode(BearerToken(header).value).value.userId == "") ==>
              r == DemoUserId
    ensures r != ""
  {
    match VerifiedUserId(header, verify)
    case Some(userId) => userId
    case None =>
      match BearerToken(header)
      case None => DemoUserId
      case Some(token) =>
        if decode(token).Some? && decode(token).value.userId != "" then decode(token).value.userId else DemoUserId
  }

  /** The command-level limit: 10 payment commands or 30 others a minute. */
  datatype RateConfig = RateConfig(maxRequests: int, windowMs: int)

  function RateLimitConfig(intent: Intent): (c: RateConfig)
    ensures c.windowMs == 60_000
    ensures c.maxRequests == (if intent == MakePayment then 10 else 30)
  {
    if intent == MakePayment then RateConfig(10, 60_000) else RateConfig(30, 60_000)
  }

  const NeedDetailsMessage := "I need the amount and recipient name to process the payment."
  const AmountRangeMessage :=
    "Payment amount must be between \U{20B9}1 and \U{20B9}50,000. For larger amounts, please use the banking app."
  const NoAccountMessage :=
    "No active account found. Please register at the banking app first (http://localhost:3002/register)."

  /** The payment gate: an amount and a payee are needed, and the amount must
      be positive and at most ₹50,000. */
  function PaymentGate(amount: Option<int>, payee: Option<string>): (r: Option<string>)
    ensures r.None? <==> amount.Some? && payee.Some? && payee.value != "" && 0 < amount.value <= PreviewPayment.PerTxnLimit
    ensures r == Some(NeedDetailsMessage) <==> amount.None? || amount.value == 0 || payee.None? || payee.value == ""
  {
    if amount.None? || amount.value == 0 || payee.None? || payee.value == "" then Some(NeedDetailsMessage)
    else if amount.value <= 0 || amount.value > 5_000_000 then Some(AmountRangeMessage)
    else None
  }

  /** The beneficiary a payee name picks: active, and its lower-cased name
      contains the lower-cased payee. */
  predicate NamesBeneficiary(b: Beneficiaries.BeneficiaryView, payee: string) {
    Contains(ToLower(b.name), ToLower(payee)) && b.isActive
  }

  /** `beneficiaries.find(...)`: the position of the first beneficiary the
      payee names. */
  function FirstNamed(bs: seq<Beneficiaries.BeneficiaryView>, payee: string): (r: Option<nat>)
    ensures r.None? <==> forall i :: 0 <= i < |bs| ==> !NamesBeneficiary(bs[i], payee)
    ensures r.Some? ==> r.value < |bs| && NamesBeneficiary(bs[r.value], payee)
    ensures r.Some? ==> forall i :: 0 <= i < r.value ==> !NamesBeneficiary(bs[i], payee)
  {
    if bs == [] then None
    else if NamesBeneficiary(bs[0], payee) then Some(0)
    else
      var rest := FirstNamed(bs[1..], payee);
      if rest.None? then None else Some(rest.value + 1)
  }

  /** What the route answers. */
  datatype CommandReply =
    | CommandRefused(refusal: Refusal)                      // 400 or 401
    | RateLimited(remaining: int, resetAt: int)             // 429
    | FraudBlocked(reasons: seq<string>)
    | Ask(message: string)                                  // a payment that cannot go ahead
    | NeedsBeneficiary(beneficiaryName: string, amount: int, paymentMethod: string)
    | RequestPreview(request: PreviewPayment.PreviewRequest)  // the preview asked of the bank
    | Answer(intent: Intent)                                // read from the bank; not modelled

  /** `payment_method || "UPI"`. */
  function MethodOrUpi(m: Option<string>): string {
    if m.None? || m.value == "" then "UPI" else m.value
  }

  /** The part of the route after logging: a bearer token is needed to call
      the bank; a payment then passes the gate, uses the first account and
      the first beneficiary the payee names. */
  function CommandDecision(parsed: ParsedIntent, header: string, accountIds: seq<string>,
                           beneficiaries: seq<Beneficiaries.BeneficiaryView>): (r: CommandReply)
    ensures r.RequestPreview? <==>
              && StartsWith(header, BearerPrefix) && parsed.intent == MakePayment
              && PaymentGate(parsed.amount, parsed.payeeName).None? && accountIds != []
              && FirstNamed(beneficiaries, parsed.payeeName.value).Some?
    ensures r.RequestPreview? ==>
              && r.request.amount == parsed.amount.value
              && 0 < r.request.amount <= PreviewPayment.PerTxnLimit
              && r.request.fromAccountId == accountIds[0]
              && r.request.beneficiaryId == beneficiaries[FirstNamed(beneficiaries, parsed.payeeName.value).value].id
              && r.request.payMethod == MethodOrUpi(parsed.paymentMethod)
    ensures r.NeedsBeneficiary? ==>
              && parsed.payeeName == Some(r.beneficiaryName)
              && FirstNamed(beneficiaries, r.beneficiaryName).None?
    ensures StartsWith(header, BearerPrefix) && parsed.intent == MakePayment &&
            PaymentGate(parsed.amount, parsed.payeeName).Some? ==>
              r == Ask(PaymentGate(parsed.amount, parsed.payeeName).value)
    ensures StartsWith(header, BearerPrefix) && parsed.intent == MakePayment &&
            PaymentGate(parsed.amount, parsed.payeeName).None? && accountIds == [] ==>
              r == Ask(NoAccountMessage)
    ensures StartsWith(header, BearerPrefix) && parsed.intent == MakePayment &&
            PaymentGate(parsed.amount, parsed.payeeName).None? && accountIds != [] &&
            FirstNamed(beneficiaries, parsed.payeeName.value).None? ==>
              r == NeedsBeneficiary(parsed.payeeName.value, parsed.amount.value, MethodOrUpi(parsed.paymentMethod))
    ensures StartsWith(header, BearerPrefix) && parsed.intent != MakePayment ==> r == Answer(parsed.intent)
    ensures !StartsWith(header, BearerPrefix) ==>
              r == CommandRefused(Refusal(401, "Authentication required. Please login first."))
  {
    if !StartsWith(header, BearerPrefix) then CommandRefused(Refusal(401, "Authentication required. Please login first."))
    else if parsed.intent != MakePayment then Answer(parsed.intent)
    else
      var gate := PaymentGate(parsed.amount, parsed.payeeName);
      if gate.Some? then Ask(gate.value)
      else if accountIds == [] then Ask(NoAccountMessage)
      else
        var payMethod := MethodOrUpi(parsed.paymentMethod);
        match FirstNamed(beneficiaries, parsed.payeeName.value)
        case None => NeedsBeneficiary(parsed.payeeName.value, parsed.amount.value, payMethod)
        case Some(i) =>
          RequestPreview(PreviewPayment.PreviewRequest(accountIds[0], beneficiaries[i].id, parsed.amount.value, payMethod))
  }

  /** The audit row the route writes under its fresh trace id. */
  function CommandEntry(traceId: string, userId: string, command: string, action: string,
                        metadataJson: string, timestamp: string, now: int): AuditEntry
  {
    AuditEntry(traceId, userId, command, IntentJson(action, metadataJson, timestamp), now)
  }

  /** `POST /api/ai/process-command`, without voice matching and without the
      calls to the bank. `parsed` is what the parser made of the command,
      `accountIds` and `beneficiaries` what the bank lists for the caller,
      `traceId` the fresh trace id, `timestamp` the ISO text of `now`, and
      `sweeps` the sweep times of the two rate-limit calls (None for a call
      that does not sweep). */
  method Process(limiter: RateLimiter, store: Store, command: string, header: string,
                 verify: Verifier, decode: Decoder, parsed: ParsedIntent,
                 accountIds: seq<string>, beneficiaries: seq<Beneficiaries.BeneficiaryView>,
                 now: int, timestamp: string, traceId: string, sweeps: (Option<int>, Option<int>))
    returns (r: CommandReply)
    requires store.Valid() && traceId != "" && traceId !in store.audit
    modifies limiter, store`audit
    ensures store.Valid()
    ensures command == "" ==>
              && r == CommandRefused(Refusal(400, "Command is required"))
              && limiter.windows == old(limiter.windows) && store.audit == old(store.audit)
    ensures command != "" ==>
              var user := EffectiveUserId(header, verify, decode);
              var config := RateLimitConfig(parsed.intent);
              var window := Counted(old(limiter.windows), user, config.windowMs, now);
              var afterLimit := RateStep(old(limiter.windows), user, config.windowMs, now, sweeps.0);
              var fraud := FraudReasons(afterLimit, user, PaymentAction, parsed.amount, old(store.audit), now);
              if window.count > config.maxRequests then
                && r == RateLimited(0, window.resetAt)
                && limiter.windows == afterLimit
                && store.audit == old(store.audit)[traceId :=
                     CommandEntry(traceId, user, command, "RATE_LIMIT_EXCEEDED", "", timestamp, now)]
              else if parsed.intent == MakePayment && fraud != [] then
                && r == FraudBlocked(fraud)
                && limiter.windows == RateStep(afterLimit, user, 30_000, now, sweeps.1)
                && store.audit == old(store.audit)[traceId :=
                     CommandEntry(traceId, user, command, PaymentAction, ",\"fraudDetected\":true", timestamp, now)]
              else
                && r == CommandDecision(parsed, header, accountIds, beneficiaries)
                && limiter.windows ==
                     (if parsed.intent == MakePayment then RateStep(afterLimit, user, 30_000, now, sweeps.1) else afterLimit)
                && store.audit == old(store.audit)[traceId :=
                     CommandEntry(traceId, user, command, IntentName(parsed.intent),
                                  ",\"traceId\":\"" + traceId + "\"", timestamp, now)]
  {
    if command == "" {
      return CommandRefused(Refusal(400, "Command is required"));
    }
    var user := EffectiveUserId(header, verify, decode);
    var config := RateLimitConfig(parsed.intent);
    var rate := limiter.CheckRateLimit(user, config.maxRequests, config.windowMs, now, sweeps.0);
    if !rate.allowed {
      var _ := LogAIAction(store, user, "RATE_LIMIT_EXCEEDED", command, "", timestamp, traceId, traceId, now);
      return RateLimited(rate.remaining, rate.resetAt);
    }
    if parsed.intent == MakePayment {
      var isFraudulent, reasons := DetectFraud(limiter, user, PaymentAction, parsed.amount, store.audit, now, sweeps.1);
      if isFraudulent {
        var _ := LogAIAction(store, user, PaymentAction, command, ",\"fraudDetected\":true", timestamp, traceId, traceId, now);
        return FraudBlocked(reasons);
      }
    }
    var _ := LogAIAction(store, user, IntentName(parsed.intent), command, ",\"traceId\":\"" + traceId + "\"",
                         timestamp, traceId, traceId, now);
    r := CommandDecision(parsed, header, accountIds, beneficiaries);
  }

  /** The command limit and the fraud burst limit share the user's one
      window: a payment command counts twice in it, so a second payment
      command within the minute finds four calls in the window and is
      flagged by the 3-call burst rule, though each limit alone would let
      it through. */
  lemma SecondPaymentCommandIsFlagged(windows: map<string, Window>, userId: string, amount: Option<int>,
                                      audit: map<string, AuditEntry>, first: int, second: int)
    requires StartsWindow(windows, userId, first)
    requires first <= second <= first + 60_000
    ensures var afterFirst := RateStep(RateStep(windows, userId, 60_000, first, None), userId, 30_000, first, None);
            var afterLimit := RateStep(afterFirst, userId, 60_000, second, None);
            && Counted(afterFirst, userId, 60_000, second).count == 3
            && BurstReason in FraudReasons(afterLimit, userId, PaymentAction, amount, audit, second)
  {
    var afterFirst := RateStep(RateStep(windows, userId, 60_000, first, None), userId, 30_000, first, None);
    assert afterFirst[RateKey(userId)] == Window(userId, 2, first + 60_000);
  }

  /** The agent's gate and the bank's rules differ: a ₹50,000 IMPS payment
      passes the gate, but the bank adds the ₹5 charge and refuses the total
      as over the per-transaction limit, whatever the balance. */
  lemma GateAdmitsWhatBankRefuses(balance: int)
    ensures PaymentGate(Some(5_000_000), Some("asha")).None?
    ensures var final := 5_000_000 + PreviewPayment.Charges("IMPS", 5_000_000);
            !PreviewPayment.CheckPaymentRules(balance, final).allowed
  {
  }
}
