/** `POST /api/payments/execute-from-preview`: executes a CONFIRMED preview
    with its consent token, once. The debit and the ledger entry are one
    database transaction: either both happen or neither does. */
module ExecuteFromPreview {
  import opened Common
  import opened OAuth
  import opened BankDb
  import PreviewPayment

  /** The JSON body ("" where absent); `status` is the outcome the bank
      automation reports. */
  datatype ExecuteRequest = ExecuteRequest(previewId: string, consentToken: string, bankReferenceId: string, status: string)

  /** The success body; `message` is "" when the route sends none. */
  datatype ExecuteBody = ExecuteBody(transactionId: string, bankReferenceId: string, message: string)

  /** What the route decides before writing anything. */
  datatype Decision =
    | Refuse(refusal: Refusal)
    | Replay(txn: Transaction)           // the preview was already executed
    | Debit(preview: PaymentPreview)     // debit the account and record the payment

  const AlreadyProcessed := "Transaction already processed"

  /** The caller's CONFIRMED preview, bound to this consent token. */
  predicate ConsentedPreview(previews: map<string, PaymentPreview>, req: ExecuteRequest, userId: string) {
    && req.previewId in previews
    && previews[req.previewId].userId == userId
    && previews[req.previewId].consentToken == Some(req.consentToken)
    && previews[req.previewId].status == Confirmed
  }

  /** The checks of the route, in order: a caller (401), both fields (400),
      an existing ledger entry for the preview (replayed, before any check of
      ownership, consent or expiry), the caller's confirmed preview with this
      token (400), not expired (400), enough balance (400). */
  function Decide(previews: map<string, PaymentPreview>, accounts: map<string, Account>, txns: seq<Transaction>,
                  userId: Option<string>, req: ExecuteRequest, now: int): (r: Decision)
    requires forall k :: k in previews ==> previews[k].fromAccountId in accounts
    ensures userId.None? ==> r == Refuse(Refusal(401, "Unauthorized"))
    ensures userId.Some? && (req.previewId == "" || req.consentToken == "") ==>
              r == Refuse(Refusal(400, "Preview ID and consent token are required"))
    ensures userId.Some? && req.previewId != "" && req.consentToken != "" && TransactionFor(txns, req.previewId).Some? ==>
              r == Replay(TransactionFor(txns, req.previewId).value)
    ensures r.Replay? ==> r.txn in txns && r.txn.paymentPreviewId == Some(req.previewId)
    ensures userId.Some? && req.previewId != "" && req.consentToken != "" && TransactionFor(txns, req.previewId).None? ==>
              if !ConsentedPreview(previews, req, userId.value) then
                r == Refuse(Refusal(400, "Invalid preview or consent token"))
              else if previews[req.previewId].expiresAt < now then
                r == Refuse(Refusal(400, "Preview has expired"))
              else if accounts[previews[req.previewId].fromAccountId].balance < previews[req.previewId].finalDebitAmount then
                r == Refuse(Refusal(400, "Insufficient balance"))
              else
                r == Debit(previews[req.previewId])
    ensures r.Debit? ==> r.preview.finalDebitAmount <= accounts[r.preview.fromAccountId].balance
  {
    if userId.None? then Refuse(Refusal(401, "Unauthorized"))
    else if req.previewId == "" || req.consentToken == "" then
      Refuse(Refusal(400, "Preview ID and consent token are required"))
    else if TransactionFor(txns, req.previewId).Some? then Replay(TransactionFor(txns, req.previewId).value)
    else if !ConsentedPreview(previews, req, userId.value) then Refuse(Refusal(400, "Invalid preview or consent token"))
    else
      var p := previews[req.previewId];
      if p.expiresAt < now then Refuse(Refusal(400, "Preview has expired"))
      else if accounts[p.fromAccountId].balance < p.finalDebitAmount then Refuse(Refusal(400, "Insufficient balance"))
      else Debit(p)
  }

  /** The ledger entry of an execution: the requested amount (the charges are
      debited but not recorded), linked to the preview, SUCCESS only when the
      caller reports "SUCCESS". `generatedRef` is the `BNK…` reference made up
      when none is supplied. */
  function NewTransaction(id: string, userId: string, p: PaymentPreview, req: ExecuteRequest, generatedRef: string): (t: Transaction)
    ensures t.paymentPreviewId == Some(p.id) && t.amount == p.requestedAmount && t.userId == userId
    ensures t.id == id && t.fromAccountId == p.fromAccountId
    ensures t.beneficiaryId == p.beneficiaryId && t.payMethod == p.payMethod
    ensures t.status == Succeeded <==> req.status == "SUCCESS"
    ensures t.bankReferenceId == (if req.bankReferenceId != "" then req.bankReferenceId else generatedRef)
    ensures t.initiatedBy == "VOICE_AI" && t.channel == "VOICE_AGENT"
  {
    Transaction(id, userId, p.fromAccountId, p.beneficiaryId, Some(p.id), p.payMethod, p.requestedAmount,
                if req.status == "SUCCESS" then Succeeded else Failed,
                if req.bankReferenceId != "" then req.bankReferenceId else generatedRef,
                "VOICE_AI", "VOICE_AGENT")
  }

  /** `POST /api/payments/execute-from-preview`. `txnId` is the fresh id of
      the ledger entry and `insertFails` says whether the database refuses to
      insert it, which rolls the whole unit back. The preview's own status is
      left as it is. */
  method Execute(db: Db, header: string, verify: Verifier, req: ExecuteRequest, now: int,
                 txnId: string, generatedRef: string, insertFails: bool) returns (r: Response<ExecuteBody>)
    requires db.Valid()
    modifies db`accounts, db`transactions
    ensures db.Valid()
    ensures var d := Decide(old(db.previews), old(db.accounts), old(db.transactions),
                            PreviewPayment.Caller(header, verify), req, now);
            match d
            case Refuse(refusal) =>
              && r == Error(refusal.status, refusal.message)
              && db.accounts == old(db.accounts) && db.transactions == old(db.transactions)
            case Replay(t) =>
              && r == Ok(ExecuteBody(t.id, t.bankReferenceId, AlreadyProcessed))
              && db.accounts == old(db.accounts) && db.transactions == old(db.transactions)
            case Debit(p) =>
              if insertFails then
                && r == Error(500, "Internal server error")
                && db.accounts == old(db.accounts) && db.transactions == old(db.transactions)
              else
                var t := NewTransaction(txnId, PreviewPayment.Caller(header, verify).value, p, req, generatedRef);
                var account := old(db.accounts)[p.fromAccountId];
                && db.accounts == old(db.accounts)[p.fromAccountId := account.(balance := account.balance - p.finalDebitAmount)]
                && db.transactions == old(db.transactions) + [t]
                && r == Ok(ExecuteBody(txnId, t.bankReferenceId, ""))
  {
    var userId := PreviewPayment.Caller(header, verify);
    var d := Decide(db.previews, db.accounts, db.transactions, userId, req, now);
    match d
    case Refuse(refusal) =>
      r := Error(refusal.status, refusal.message);
    case Replay(t) =>
      r := Ok(ExecuteBody(t.id, t.bankReferenceId, AlreadyProcessed));
    case Debit(p) =>
      var account := db.accounts[p.fromAccountId];
      var balance := account.balance - p.finalDebitAmount;
      // The source re-reads the balance after the decrement and throws when it
      // is negative; the checks above make that impossible without a
      // concurrent debit.
      assert balance >= 0;
      if insertFails {
        return Error(500, "Internal server error");
      }
      var t := NewTransaction(txnId, userId.value, p, req, generatedRef);
      assert p.id == req.previewId;
      AppendKeepsPreviewLinksUnique(db.transactions, t);
      db.accounts := db.accounts[p.fromAccountId := account.(balance := balance)];
      db.transactions := db.transactions + [t];
      r := Ok(ExecuteBody(txnId, t.bankReferenceId, ""));
  }

  /** Idempotency: after an execution records entry `t`, every later request
      naming the same preview, from any caller and with any consent token,
      replays `t` without touching the balance. */
  lemma ExecutionIsReplayed(txns: seq<Transaction>, t: Transaction, previews: map<string, PaymentPreview>,
                            accounts: map<string, Account>, userId: string, req: ExecuteRequest, now: int)
    requires forall k :: k in previews ==> previews[k].fromAccountId in accounts
    requires t.paymentPreviewId == Some(req.previewId) && TransactionFor(txns, req.previewId).None?
    requires req.previewId != "" && req.consentToken != ""
    ensures Decide(previews, accounts, txns + [t], Some(userId), req, now) == Replay(t)
  {
    assert t in txns + [t];
  }

  /** The ledger status does not gate the debit: a payment reported as failed
      still takes the full debit from the account. */
  lemma FailedPaymentIsDebited(previews: map<string, PaymentPreview>, accounts: map<string, Account>,
                               txns: seq<Transaction>, userId: string, req: ExecuteRequest, now: int,
                               txnId: string, generatedRef: string)
    requires forall k :: k in previews ==> previews[k].fromAccountId in accounts
    requires Decide(previews, accounts, txns, Some(userId), req, now).Debit?
    requires req.status != "SUCCESS"
    ensures var p := Decide(previews, accounts, txns, Some(userId), req, now).preview;
            NewTransaction(txnId, userId, p, req, generatedRef).status == Failed &&
            Decide(previews, accounts, txns, Some(userId), req.(status := "SUCCESS"), now) == Debit(p)
  {
  }
}
