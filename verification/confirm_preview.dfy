/** `POST /api/payments/confirm-preview`: the user's consent moves a PENDING
    preview to CONFIRMED and binds it to a consent token. The rules outcome
    is never consulted, so a preview the rules refused can be confirmed. */
module ConfirmPreview {
  import opened Common
  import opened OAuth
  import opened BankDb
  import PreviewPayment

  /** The caller's preview that is still PENDING. */
  predicate PendingPreviewOf(previews: map<string, PaymentPreview>, previewId: string, userId: string) {
    previewId in previews && previews[previewId].userId == userId && previews[previewId].status == Pending
  }

  /** The checks of the route, in order: a caller (401), both fields (400),
      the caller's PENDING preview (404), not expired (400). */
  function ConfirmRefusal(previews: map<string, PaymentPreview>, userId: Option<string>,
                          previewId: string, consentToken: string, now: int): (r: Option<Refusal>)
    ensures userId.None? ==> r == Some(Refusal(401, "Unauthorized"))
    ensures userId.Some? && (previewId == "" || consentToken == "") ==>
              r == Some(Refusal(400, "Preview ID and consent token are required"))
    ensures userId.Some? && previewId != "" && consentToken != "" && !PendingPreviewOf(previews, previewId, userId.value) ==>
              r == Some(Refusal(404, "Preview not found or already confirmed"))
    ensures r == Some(Refusal(400, "Preview has expired")) <==>
              userId.Some? && previewId != "" && consentToken != "" &&
              PendingPreviewOf(previews, previewId, userId.value) && previews[previewId].expiresAt < now
    ensures r.None? <==>
              userId.Some? && previewId != "" && consentToken != "" &&
              PendingPreviewOf(previews, previewId, userId.value) && previews[previewId].expiresAt >= now
  {
    if userId.None? then Some(Refusal(401, "Unauthorized"))
    else if previewId == "" || consentToken == "" then Some(Refusal(400, "Preview ID and consent token are required"))
    else if !PendingPreviewOf(previews, previewId, userId.value) then
      Some(Refusal(404, "Preview not found or already confirmed"))
    else if previews[previewId].expiresAt < now then Some(Refusal(400, "Preview has expired"))
    else None
  }

  /** `POST /api/payments/confirm-preview`: on success exactly the consent
      token and the status of that one preview change. */
  method Confirm(db: Db, header: string, verify: Verifier, previewId: string, consentToken: string, now: int)
    returns (r: Response<()>)
    requires db.Valid()
    modifies db`previews
    ensures db.Valid()
    ensures var refusal := ConfirmRefusal(old(db.previews), PreviewPayment.Caller(header, verify), previewId, consentToken, now);
            if refusal.Some? then
              r == Error(refusal.value.status, refusal.value.message) && db.previews == old(db.previews)
            else
              && r == Ok(())
              && db.previews == old(db.previews)[previewId :=
                   old(db.previews)[previewId].(consentToken := Some(consentToken), status := Confirmed)]
  {
    var refusal := ConfirmRefusal(db.previews, PreviewPayment.Caller(header, verify), previewId, consentToken, now);
    if refusal.Some? {
      return Error(refusal.value.status, refusal.value.message);
    }
    db.previews := db.previews[previewId := db.previews[previewId].(consentToken := Some(consentToken), status := Confirmed)];
    r := Ok(());
  }

  /** Confirmation is one-shot: once a preview is confirmed, confirming it
      again is refused with 404, whoever asks and whenever. */
  lemma ConfirmIsOneShot(previews: map<string, PaymentPreview>, userId: Option<string>, previewId: string,
                         consentToken: string, now: int, userId': Option<string>, consentToken': string, now': int)
    requires ConfirmRefusal(previews, userId, previewId, consentToken, now).None?
    requires userId'.Some? && consentToken' != ""
    ensures var after := previews[previewId := previews[previewId].(consentToken := Some(consentToken), status := Confirmed)];
            ConfirmRefusal(after, userId', previewId, consentToken', now') ==
              Some(Refusal(404, "Preview not found or already confirmed"))
  {
  }

  /** The rules outcome plays no part: a preview whose rules refused the
      payment is confirmed like any other. */
  lemma RefusedPreviewCanBeConfirmed(previews: map<string, PaymentPreview>, userId: string, previewId: string,
                                     consentToken: string, now: int)
    requires PendingPreviewOf(previews, previewId, userId) && previews[previewId].expiresAt >= now
    requires previewId != "" && consentToken != ""
    requires !previews[previewId].rulesResult.allowed
    ensures ConfirmRefusal(previews, Some(userId), previewId, consentToken, now).None?
  {
  }
}
