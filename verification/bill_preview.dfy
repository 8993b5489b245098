/** `POST /api/bills/preview`: prices a bill payment (no charges, no limit),
    refuses it only when the amount exceeds the balance, and stores a PENDING
    bill preview with a consent token minted on the spot. */
module PreviewBill {
  import opened Common
  import opened BankDb
  import PreviewPayment

  /** The JSON body ("" or 0 where absent). */
  datatype BillRequest = BillRequest(
    fromAccountId: string, billType: string, billerName: string, consumerNumber: string, amount: int)

  /** The success body. */
  datatype BillPreviewBody = BillPreviewBody(
    previewId: string, billType: string, billerName: string, consumerNumber: string,
    amount: int, finalDebitAmount: int, consentToken: string, expiresAt: int, rulesResult: RulesResult)

  /** The route's reply: the priced bill, or a refusal, which carries a
      rules result only for the balance refusal. */
  datatype BillPreviewReply =
    | BillPriced(body: BillPreviewBody)
    | BillRefused(refusal: Refusal, rulesResult: Option<RulesResult>)

  predicate MissingBillField(req: BillRequest) {
    req.fromAccountId == "" || req.billType == "" || req.billerName == "" || req.consumerNumber == "" || req.amount == 0
  }

  /** The caller's account, whatever its status. */
  predicate OwnsAccount(accounts: map<string, Account>, id: string, userId: string) {
    id in accounts && accounts[id].userId == userId
  }

  /** The checks of the route, in order: a caller (401), all five fields
      (400), the caller's account in any status (404), an amount no larger
      than the balance (400). */
  function BillRefusal(accounts: map<string, Account>, auth: Option<string>, req: BillRequest): (r: Option<Refusal>)
    ensures auth.None? ==> r == Some(Refusal(401, "Unauthorized"))
    ensures auth.Some? && MissingBillField(req) ==> r == Some(Refusal(400, "Missing required fields"))
    ensures auth.Some? && !MissingBillField(req) && !OwnsAccount(accounts, req.fromAccountId, auth.value) ==>
              r == Some(Refusal(404, "Account not found"))
    ensures r == Some(Refusal(400, "Insufficient balance")) <==>
              auth.Some? && !MissingBillField(req) && OwnsAccount(accounts, req.fromAccountId, auth.value) &&
              req.amount > accounts[req.fromAccountId].balance
    ensures r.None? <==>
              auth.Some? && !MissingBillField(req) && OwnsAccount(accounts, req.fromAccountId, auth.value) &&
              req.amount <= accounts[req.fromAccountId].balance
  {
    if auth.None? then Some(Refusal(401, "Unauthorized"))
    else if MissingBillField(req) then Some(Refusal(400, "Missing required fields"))
    else if !OwnsAccount(accounts, req.fromAccountId, auth.value) then Some(Refusal(404, "Account not found"))
    else if req.amount > accounts[req.fromAccountId].balance then Some(Refusal(400, "Insufficient balance"))
    else None
  }

  /** The stored bill preview: no charges, the whole amount to be debited. */
  function NewBillPreview(id: string, userId: string, req: BillRequest, consentToken: string, now: int): (p: BillPreview)
    ensures p.charges == 0 && p.finalDebitAmount == p.amount && p.amount == req.amount
    ensures p.status == Pending && p.consentToken == consentToken
    ensures p.expiresAt == now + PreviewPayment.PreviewLifetime
    ensures p.id == id && p.userId == userId && p.fromAccountId == req.fromAccountId
    ensures p.billType == req.billType && p.billerName == req.billerName && p.consumerNumber == req.consumerNumber
  {
    BillPreview(id, userId, req.fromAccountId, req.billType, req.billerName, req.consumerNumber,
                req.amount, 0, req.amount, Pending, consentToken, now + PreviewPayment.PreviewLifetime)
  }

  /** `POST /api/bills/preview`. `auth` is the caller `verifyAuth` finds (its
      definition is not part of this model), `previewId` the fresh id and
      `consentToken` the fresh random token. The reply always reports the
      rules as allowed. */
  method CreateBillPreview(db: Db, auth: Option<string>, req: BillRequest, now: int,
                           previewId: string, consentToken: string) returns (r: BillPreviewReply)
    requires db.Valid()
    requires previewId !in db.billPreviews
    modifies db`billPreviews
    ensures db.Valid()
    ensures var refusal := BillRefusal(old(db.accounts), auth, req);
            if refusal.Some? then
              && r == BillRefused(refusal.value,
                                  if refusal.value.status == 400 && refusal.value.message == "Insufficient balance"
                                  then Some(RulesResult(false, ["Insufficient balance"])) else None)
              && db.billPreviews == old(db.billPreviews)
            else
              var p := NewBillPreview(previewId, auth.value, req, consentToken, now);
              && db.billPreviews == old(db.billPreviews)[previewId := p]
              && r == BillPriced(BillPreviewBody(previewId, req.billType, req.billerName, req.consumerNumber,
                                                 req.amount, req.amount, consentToken, p.expiresAt, RulesResult(true, [])))
  {
    var refusal := BillRefusal(db.accounts, auth, req);
    if refusal.Some? {
      if refusal.value.status == 400 && refusal.value.message == "Insufficient balance" {
        return BillRefused(refusal.value, Some(RulesResult(false, ["Insufficient balance"])));
      }
      return BillRefused(refusal.value, None);
    }
    var p := NewBillPreview(previewId, auth.value, req, consentToken, now);
    db.billPreviews := db.billPreviews[previewId := p];
    r := BillPriced(BillPreviewBody(previewId, req.billType, req.billerName, req.consumerNumber,
                                    req.amount, req.amount, consentToken, p.expiresAt, RulesResult(true, [])));
  }

  /** The balance test lets through an amount equal to the balance, and one
      larger by any amount is refused. */
  lemma WholeBalanceCanBePaid(accounts: map<string, Account>, userId: string, req: BillRequest)
    requires !MissingBillField(req) && OwnsAccount(accounts, req.fromAccountId, userId)
    ensures req.amount == accounts[req.fromAccountId].balance ==> BillRefusal(accounts, Some(userId), req).None?
    ensures req.amount > accounts[req.fromAccountId].balance ==>
              BillRefusal(accounts, Some(userId), req) == Some(Refusal(400, "Insufficient balance"))
  {
  }
}
