/** `POST /api/payments/execute`: the banking UI's direct payment. It asks the
    preview route for a preview (which stores one), then debits the balance,
    records the payment and marks the preview CONFIRMED as three separate
    writes: a failure in between leaves the debit without its ledger entry. */
module ExecutePayment {
  import opened Common
  import opened OAuth
  import opened BearerAuth
  import opened BankDb
  import opened PreviewPayment

  /** The success body. */
  datatype PaymentBody = PaymentBody(transactionId: string, bankReferenceId: string, amount: int)

  /** The ledger entry of a direct payment: always SUCCESS, from the UI, and
      not linked to the preview it made. */
  function DirectTransaction(id: string, userId: string, req: PreviewRequest, bankRef: string): (t: Transaction)
    ensures t.paymentPreviewId.None? && t.status == Succeeded
    ensures t.amount == req.amount && t.userId == userId && t.fromAccountId == req.fromAccountId
    ensures t.id == id && t.bankReferenceId == bankRef
    ensures t.beneficiaryId == req.beneficiaryId && t.payMethod == req.payMethod
    ensures t.initiatedBy == "USER_UI" && t.channel == "WEB"
  {
    Transaction(id, userId, req.fromAccountId, req.beneficiaryId, None, req.payMethod, req.amount,
                Succeeded, bankRef, "USER_UI", "WEB")
  }

  /** How the route reads the preview reply: a refused preview call gives
      "Payment not allowed", a preview the rules refused gives its reason. */
  function NotAllowedMessage(preview: Option<PaymentPreview>): (m: string)
    requires preview.Some? ==> |preview.value.rulesResult.reasons| >= 1
    ensures preview.None? ==> m == "Payment not allowed"
    ensures preview.Some? ==> m == preview.value.rulesResult.reasons[0]
  {
    if preview.None? then "Payment not allowed" else preview.value.rulesResult.reasons[0]
  }

  /** A caller the preview route accepts is the caller this route accepts. */
  lemma CallerIsVerified(header: string, verify: Verifier)
    requires Caller(header, verify).Some?
    ensures VerifiedUserId(header, verify) == Caller(header, verify)
  {
  }

  /** `POST /api/payments/execute`. The caller needs only a token that
      verifies; the preview call forwards the same header and so applies the
      "payments" scope check too. `previewId`, `txnId` and `bankRef` are the
      fresh ids and reference; `insertFails` says whether the database refuses
      the ledger entry, after the balance has already been written. */
  method Execute(db: Db, header: string, verify: Verifier, req: PreviewRequest, now: int,
                 previewId: string, txnId: string, bankRef: string, insertFails: bool)
    returns (r: Response<PaymentBody>)
    requires db.Valid()
    requires previewId !in db.previews
    modifies db`previews, db`accounts, db`transactions
    ensures db.Valid()
    ensures VerifiedUserId(header, verify).None? ==>
              && r == Error(401, "Unauthorized")
              && db.previews == old(db.previews) && db.accounts == old(db.accounts)
              && db.transactions == old(db.transactions)
    ensures VerifiedUserId(header, verify).Some? &&
            PreviewRefusal(old(db.accounts), old(db.beneficiaries), Caller(header, verify), req).Some? ==>
              && r == Error(400, NotAllowedMessage(None))
              && db.previews == old(db.previews) && db.accounts == old(db.accounts)
              && db.transactions == old(db.transactions)
    ensures VerifiedUserId(header, verify).Some? &&
            PreviewRefusal(old(db.accounts), old(db.beneficiaries), Caller(header, verify), req).None? ==>
              var userId := VerifiedUserId(header, verify).value;
              var account := old(db.accounts)[req.fromAccountId];
              var p := NewPreview(previewId, userId, req, account.balance, now);
              if !p.rulesResult.allowed then
                && r == Error(400, NotAllowedMessage(Some(p)))
                && db.previews == old(db.previews)[previewId := p]
                && db.accounts == old(db.accounts) && db.transactions == old(db.transactions)
              else
                && db.accounts == old(db.accounts)[req.fromAccountId := account.(balance := account.balance - p.finalDebitAmount)]
                && if insertFails then
                     && r == Error(500, "Internal server error")
                     && db.previews == old(db.previews)[previewId := p]
                     && db.transactions == old(db.transactions)
                   else
                     && r == Ok(PaymentBody(txnId, bankRef, req.amount))
                     && db.previews == old(db.previews)[previewId := p.(status := Confirmed)]
                     && db.transactions == old(db.transactions) + [DirectTransaction(txnId, userId, req, bankRef)]
  {
    var userId := VerifiedUserId(header, verify);
    if userId.None? {
      return Error(401, "Unauthorized");
    }
    ghost var refusal := PreviewRefusal(db.accounts, db.beneficiaries, Caller(header, verify), req);
    var previewReply := CreatePreview(db, header, verify, req, now, previewId);
    if previewReply.Error? {
      return Error(400, NotAllowedMessage(None));
    }
    assert refusal.None?;
    CallerIsVerified(header, verify);
    var p := db.previews[previewId];
    if !p.rulesResult.allowed {
      return Error(400, NotAllowedMessage(Some(p)));
    }
    // The route now looks the account up again (ACTIVE, the caller's) and
    // compares its balance with the debit; the allowed preview has just
    // established both, so neither refusal can occur here.
    assert OwnsActiveAccount(db.accounts, req.fromAccountId, userId.value);
    assert db.accounts[req.fromAccountId].balance >= p.finalDebitAmount;
    r := Settle(db, userId.value, req, p, txnId, bankRef, insertFails);
  }

  /** The three writes of an allowed direct payment: the balance, then the
      ledger entry, then the preview's status; a refused ledger entry stops
      the sequence after the first write. */
  method Settle(db: Db, userId: string, req: PreviewRequest, p: PaymentPreview,
                txnId: string, bankRef: string, insertFails: bool) returns (r: Response<PaymentBody>)
    requires db.Valid()
    requires p.id in db.previews && db.previews[p.id] == p && req.fromAccountId in db.accounts
    requires db.accounts[req.fromAccountId].balance >= p.finalDebitAmount
    modifies db`previews, db`accounts, db`transactions
    ensures db.Valid()
    ensures var account := old(db.accounts)[req.fromAccountId];
            db.accounts == old(db.accounts)[req.fromAccountId := account.(balance := account.balance - p.finalDebitAmount)]
    ensures insertFails ==>
              && r == Error(500, "Internal server error")
              && db.previews == old(db.previews) && db.transactions == old(db.transactions)
    ensures !insertFails ==>
              && r == Ok(PaymentBody(txnId, bankRef, req.amount))
              && db.previews == old(db.previews)[p.id := p.(status := Confirmed)]
              && db.transactions == old(db.transactions) + [DirectTransaction(txnId, userId, req, bankRef)]
  {
    var account := db.accounts[req.fromAccountId];
    db.accounts := db.accounts[req.fromAccountId := account.(balance := account.balance - p.finalDebitAmount)];
    if insertFails {
      return Error(500, "Internal server error");
    }
    var t := DirectTransaction(txnId, userId, req, bankRef);
    AppendKeepsPreviewLinksUnique(db.transactions, t);
    db.transactions := db.transactions + [t];
    db.previews := db.previews[p.id := p.(status := Confirmed)];
    r := Ok(PaymentBody(txnId, bankRef, req.amount));
  }
}
