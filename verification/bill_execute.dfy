/** `POST /api/bills/execute-from-preview`: pays a PENDING bill preview with
    its consent token. The debit, the bill payment and the move to CONFIRMED
    are one database transaction, rolled back if the debit would leave the
    balance negative. */
module ExecuteBill {
  import opened Common
  import opened BankDb

  /** The success body. */
  datatype BillExecuteBody = BillExecuteBody(transactionId: string, bankReferenceId: string)

  /** What the route decides before writing anything. */
  datatype BillDecision =
    | BillRefuse(refusal: Refusal)
    | BillReplay(payment: BillPayment)   // a payment already exists for the preview
    | BillDebit(preview: BillPreview)    // debit, record and confirm

  /** The checks of the route, in order: a caller (401), both fields (400),
      the caller's preview (404), the consent token (403), not expired (400),
      still PENDING (400), then an existing payment is returned. */
  function DecideBill(billPreviews: map<string, BillPreview>, payments: seq<BillPayment>,
                      auth: Option<string>, previewId: string, consentToken: string, now: int): (r: BillDecision)
    ensures auth.None? ==> r == BillRefuse(Refusal(401, "Unauthorized"))
    ensures auth.Some? && (previewId == "" || consentToken == "") ==>
              r == BillRefuse(Refusal(400, "Missing required fields"))
    ensures auth.Some? && previewId != "" && consentToken != "" ==>
              if previewId !in billPreviews || billPreviews[previewId].userId != auth.value then
                r == BillRefuse(Refusal(404, "Bill preview not found"))
              else if billPreviews[previewId].consentToken != consentToken then
                r == BillRefuse(Refusal(403, "Invalid consent token"))
              else if now > billPreviews[previewId].expiresAt then
                r == BillRefuse(Refusal(400, "Preview expired"))
              else if billPreviews[previewId].status != Pending then
                r == BillRefuse(Refusal(400, "Bill already processed or cancelled"))
              else if BillPaymentFor(payments, previewId).Some? then
                r == BillReplay(BillPaymentFor(payments, previewId).value)
              else
                r == BillDebit(billPreviews[previewId])
    ensures r.BillReplay? || r.BillDebit? ==>
              previewId in billPreviews && billPreviews[previewId].status == Pending
  {
    if auth.None? then BillRefuse(Refusal(401, "Unauthorized"))
    else if previewId == "" || consentToken == "" then BillRefuse(Refusal(400, "Missing required fields"))
    else if previewId !in billPreviews || billPreviews[previewId].userId != auth.value then
      BillRefuse(Refusal(404, "Bill preview not found"))
    else
      var p := billPreviews[previewId];
      if p.consentToken != consentToken then BillRefuse(Refusal(403, "Invalid consent token"))
      else if now > p.expiresAt then BillRefuse(Refusal(400, "Preview expired"))
      else if p.status != Pending then BillRefuse(Refusal(400, "Bill already processed or cancelled"))
      else if BillPaymentFor(payments, previewId).Some? then BillReplay(BillPaymentFor(payments, previewId).value)
      else BillDebit(p)
  }

  /** The bill payment recorded for preview `p`. */
  function NewBillPayment(id: string, userId: string, p: BillPreview, bankRef: string): (b: BillPayment)
    ensures b.billPreviewId == p.id && b.amount == p.amount && b.status == Succeeded
    ensures b.userId == userId && b.fromAccountId == p.fromAccountId && b.initiatedBy == "VOICE_AI"
    ensures b.id == id && b.bankReferenceId == bankRef
    ensures b.billType == p.billType && b.billerName == p.billerName && b.consumerNumber == p.consumerNumber
  {
    BillPayment(id, userId, p.fromAccountId, p.id, p.billType, p.billerName, p.consumerNumber,
                p.amount, Succeeded, bankRef, "VOICE_AI")
  }

  /** `POST /api/bills/execute-from-preview`. `auth` is the caller
      `verifyAuth` finds, `paymentId` the fresh id and `bankRef` the random
      `BILL-…` reference. */
  method Execute(db: Db, auth: Option<string>, previewId: string, consentToken: string, now: int,
                 paymentId: string, bankRef: string) returns (r: Response<BillExecuteBody>)
    requires db.Valid()
    modifies db`accounts, db`billPayments, db`billPreviews
    ensures db.Valid()
    ensures match DecideBill(old(db.billPreviews), old(db.billPayments), auth, previewId, consentToken, now)
            case BillRefuse(refusal) =>
              && r == Error(refusal.status, refusal.message)
              && db.accounts == old(db.accounts) && db.billPayments == old(db.billPayments)
              && db.billPreviews == old(db.billPreviews)
            case BillReplay(b) =>
              && r == Ok(BillExecuteBody(b.id, b.bankReferenceId))
              && db.accounts == old(db.accounts) && db.billPayments == old(db.billPayments)
              && db.billPreviews == old(db.billPreviews)
            case BillDebit(p) =>
              var account := old(db.accounts)[p.fromAccountId];
              if account.balance < p.finalDebitAmount then
                && r == Error(500, "Insufficient balance after transaction")
                && db.accounts == old(db.accounts) && db.billPayments == old(db.billPayments)
                && db.billPreviews == old(db.billPreviews)
              else
                && r == Ok(BillExecuteBody(paymentId, bankRef))
                && db.accounts == old(db.accounts)[p.fromAccountId := account.(balance := account.balance - p.finalDebitAmount)]
                && db.billPayments == old(db.billPayments) + [NewBillPayment(paymentId, auth.value, p, bankRef)]
                && db.billPreviews == old(db.billPreviews)[p.id := p.(status := Confirmed)]
  {
    match DecideBill(db.billPreviews, db.billPayments, auth, previewId, consentToken, now)
    case BillRefuse(refusal) =>
      r := Error(refusal.status, refusal.message);
    case BillReplay(b) =>
      r := Ok(BillExecuteBody(b.id, b.bankReferenceId));
    case BillDebit(p) =>
      var account := db.accounts[p.fromAccountId];
      var balance := account.balance - p.finalDebitAmount;
      if balance < 0 {
        // The decrement is rolled back with the rest of the unit.
        return Error(500, "Insufficient balance after transaction");
      }
      var b := NewBillPayment(paymentId, auth.value, p, bankRef);
      AppendKeepsBillLinksUnique(db.billPayments, b);
      db.accounts := db.accounts[p.fromAccountId := account.(balance := balance)];
      db.billPayments := db.billPayments + [b];
      db.billPreviews := db.billPreviews[p.id := p.(status := Confirmed)];
      r := Ok(BillExecuteBody(paymentId, bankRef));
  }

  /** Executing a bill preview twice is not idempotent: after a successful
      execution the preview is CONFIRMED, so the same request, while still in
      time, is refused with "already processed" instead of returning the
      payment; the replay branch is never reached this way. */
  lemma ReExecutionIsRefused(billPreviews: map<string, BillPreview>, payments: seq<BillPayment>,
                             auth: Option<string>, previewId: string, consentToken: string, now: int,
                             b: BillPayment, later: int)
    requires DecideBill(billPreviews, payments, auth, previewId, consentToken, now).BillDebit?
    requires later <= billPreviews[previewId].expiresAt
    ensures var p := billPreviews[previewId];
            DecideBill(billPreviews[previewId := p.(status := Confirmed)], payments + [b], auth, previewId, consentToken, later) ==
              BillRefuse(Refusal(400, "Bill already processed or cancelled"))
  {
  }
}
