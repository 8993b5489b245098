/** `POST /api/payments/preview`: prices a payment, runs the payment rules on
    the amount to be debited and stores a PENDING preview that the user must
    confirm within fifteen minutes. Amounts are in paise. */
module PreviewPayment {
  import opened Common
  import opened OAuth
  import opened BearerAuth
  import opened BankDb

  /** ₹10,000: charges apply only strictly above it. */
  const FeeThreshold := 1_000_000
  /** ₹2.50 for NEFT and ₹5 for IMPS; UPI and anything else is free. */
  const NeftFee := 250
  const ImpsFee := 500
  /** ₹50,000 per transaction. */
  const PerTxnLimit := 5_000_000
  /** Fifteen minutes, in milliseconds. */
  const PreviewLifetime := 15 * 60 * 1000
  const PaymentsScope := "payments"

  const InsufficientBalance := "Insufficient balance"
  /** The limit reason as the source file spells it: the rupee sign's UTF-8
      bytes read as Windows-1252 ("â‚¹"). */
  const LimitReason := "Amount exceeds per-transaction limit of \U{E2}\U{201A}\U{B9}50000"

  /** The JSON body ("" or 0 where absent). */
  datatype PreviewRequest = PreviewRequest(fromAccountId: string, beneficiaryId: string, amount: int, payMethod: string)

  /** The success body. */
  datatype PreviewBody = PreviewBody(
    previewId: string, requestedAmount: int, charges: int, finalDebitAmount: int,
    rulesResult: RulesResult, expiresAt: int)

  /** The charge table. */
  function Charges(payMethod: string, amount: int): (r: int)
    ensures r == 0 || r == NeftFee || r == ImpsFee
    ensures r == NeftFee <==> payMethod == "NEFT" && amount > FeeThreshold
    ensures r == ImpsFee <==> payMethod == "IMPS" && amount > FeeThreshold
  {
    if payMethod == "NEFT" then (if amount > FeeThreshold then NeftFee else 0)
    else if payMethod == "IMPS" then (if amount > FeeThreshold then ImpsFee else 0)
    else 0
  }

  /** `checkPaymentRules`, applied to the amount to be debited: the balance
      test first, then the per-transaction limit; the first failure is the
      only reason given. */
  function CheckPaymentRules(balance: int, amount: int): (r: RulesResult)
    ensures |r.reasons| <= 1
    ensures r.allowed <==> r.reasons == []
    ensures r.allowed <==> balance >= amount && amount <= PerTxnLimit
    ensures balance < amount ==> r.reasons == [InsufficientBalance]
    ensures balance >= amount && amount > PerTxnLimit ==> r.reasons == [LimitReason]
  {
    if balance < amount then RulesResult(false, [InsufficientBalance])
    else if amount > PerTxnLimit then RulesResult(false, [LimitReason])
    else RulesResult(true, [])
  }

  /** The account the caller may pay from: theirs and ACTIVE. */
  predicate OwnsActiveAccount(accounts: map<string, Account>, id: string, userId: string) {
    id in accounts && accounts[id].userId == userId && accounts[id].status == Active
  }

  /** The caller has an active beneficiary with this id. */
  predicate HasActiveBeneficiary(beneficiaries: seq<Beneficiary>, id: string, userId: string) {
    exists b :: b in beneficiaries && b.id == id && b.userId == userId && b.isActive
  }

  /** The preview stored for `req`, priced against `balance`. */
  function NewPreview(id: string, userId: string, req: PreviewRequest, balance: int, now: int): (p: PaymentPreview)
    ensures p.id == id && p.userId == userId && p.fromAccountId == req.fromAccountId
    ensures p.beneficiaryId == req.beneficiaryId && p.payMethod == req.payMethod
    ensures p.finalDebitAmount == p.requestedAmount + p.charges && p.requestedAmount == req.amount
    ensures p.charges == Charges(req.payMethod, req.amount)
    ensures p.rulesResult == CheckPaymentRules(balance, p.finalDebitAmount)
    ensures p.status == Pending && p.consentToken.None? && p.expiresAt == now + PreviewLifetime
  {
    var charges := Charges(req.payMethod, req.amount);
    PaymentPreview(id, userId, req.fromAccountId, req.beneficiaryId, req.payMethod, req.amount,
                   charges, req.amount + charges, CheckPaymentRules(balance, req.amount + charges),
                   Pending, None, now + PreviewLifetime)
  }

  /** The checks of the route, in order: a caller (401), all four fields
      (400), the caller's ACTIVE source account (404), the caller's active
      beneficiary (404). None means the preview is created. */
  function PreviewRefusal(accounts: map<string, Account>, beneficiaries: seq<Beneficiary>,
                          userId: Option<string>, req: PreviewRequest): (r: Option<Refusal>)
    ensures userId.None? ==> r == Some(Refusal(401, "Unauthorized"))
    ensures userId.Some? && MissingField(req) ==> r == Some(Refusal(400, "Missing required fields"))
    ensures userId.Some? && !MissingField(req) && !OwnsActiveAccount(accounts, req.fromAccountId, userId.value) ==>
              r == Some(Refusal(404, "Account not found"))
    ensures userId.Some? && !MissingField(req) && OwnsActiveAccount(accounts, req.fromAccountId, userId.value) &&
            !HasActiveBeneficiary(beneficiaries, req.beneficiaryId, userId.value) ==>
              r == Some(Refusal(404, "Beneficiary not found"))
    ensures r.None? <==>
              && userId.Some? && !MissingField(req)
              && OwnsActiveAccount(accounts, req.fromAccountId, userId.value)
              && HasActiveBeneficiary(beneficiaries, req.beneficiaryId, userId.value)
  {
    if userId.None? then Some(Refusal(401, "Unauthorized"))
    else if MissingField(req) then Some(Refusal(400, "Missing required fields"))
    else if !OwnsActiveAccount(accounts, req.fromAccountId, userId.value) then Some(Refusal(404, "Account not found"))
    else if !HasActiveBeneficiary(beneficiaries, req.beneficiaryId, userId.value) then
      Some(Refusal(404, "Beneficiary not found"))
    else None
  }

  /** A field is missing when it is falsy: "" or the amount 0. */
  predicate MissingField(req: PreviewRequest) {
    req.fromAccountId == "" || req.beneficiaryId == "" || req.amount == 0 || req.payMethod == ""
  }

  /** The user the route acts for: a verified token, holding the "payments"
      scope if it is an OAuth access token. */
  function Caller(header: string, verify: Verifier): Option<string> {
    ScopedUserId(header, verify, PaymentsScope)
  }

  /** `POST /api/payments/preview`. `previewId` is the fresh id the database
      assigns. The preview is stored whatever the rules decide. */
  method CreatePreview(db: Db, header: string, verify: Verifier, req: PreviewRequest, now: int, previewId: string)
    returns (r: Response<PreviewBody>)
    requires db.Valid()
    requires previewId !in db.previews
    modifies db`previews
    ensures db.Valid()
    ensures var refusal := PreviewRefusal(old(db.accounts), old(db.beneficiaries), Caller(header, verify), req);
            if refusal.Some? then
              r == Error(refusal.value.status, refusal.value.message) && db.previews == old(db.previews)
            else
              var p := NewPreview(previewId, Caller(header, verify).value, req, db.accounts[req.fromAccountId].balance, now);
              && db.previews == old(db.previews)[previewId := p]
              && r == Ok(PreviewBody(previewId, p.requestedAmount, p.charges, p.finalDebitAmount, p.rulesResult, p.expiresAt))
  {
    var userId := Caller(header, verify);
    var refusal := PreviewRefusal(db.accounts, db.beneficiaries, userId, req);
    if refusal.Some? {
      return Error(refusal.value.status, refusal.value.message);
    }
    var p := NewPreview(previewId, userId.value, req, db.accounts[req.fromAccountId].balance, now);
    db.previews := db.previews[previewId := p];
    r := Ok(PreviewBody(previewId, p.requestedAmount, p.charges, p.finalDebitAmount, p.rulesResult, p.expiresAt));
  }

  /** What an allowed preview promises: the debit fits the balance and the
      limit, and it exceeds the request by exactly the fee of its method. */
  lemma AllowedPreviewFits(id: string, userId: string, req: PreviewRequest, balance: int, now: int)
    requires NewPreview(id, userId, req, balance, now).rulesResult.allowed
    ensures var p := NewPreview(id, userId, req, balance, now);
            && p.finalDebitAmount <= balance
            && p.finalDebitAmount <= PerTxnLimit
            && p.finalDebitAmount - p.requestedAmount == Charges(req.payMethod, req.amount)
  {
  }

  /** Only the falsy amount 0 is refused as missing: a negative amount is
      priced without charges and, against any non-negative balance, allowed. */
  lemma NegativeAmountIsAllowed(id: string, userId: string, req: PreviewRequest, balance: int, now: int)
    requires req.amount < 0 && balance >= 0
    ensures NewPreview(id, userId, req, balance, now).rulesResult == RulesResult(true, [])
    ensures NewPreview(id, userId, req, balance, now).finalDebitAmount == req.amount
  {
  }
}
