/** `POST /api/pin/set`: sets or changes the security PIN of a user's
    account, after the old PIN when the client says it verified the user
    that way. */
module PinSet {
  import opened Common
  import opened AgentDb
  import opened PinVerify

  /** The JSON body ("" where absent). */
  datatype SetPinRequest = SetPinRequest(pin: string, accountId: string, verifiedVia: string, oldPin: string)

  /** The checks of the route, in order: a caller (401), a four-digit PIN
      (400), an account (400), and, when `verifiedVia` is "old_pin", an
      existing PIN of the user that the old PIN matches (401). Any other
      `verifiedVia`, "password" included, is taken on trust. */
  function SetPinRefusal(pins: seq<UserPin>, userId: Option<string>, req: SetPinRequest, compare: Compare)
    : (r: Option<Refusal>)
    ensures userId.None? ==> r == Some(Refusal(401, "Authentication required"))
    ensures userId.Some? && !ValidPin(req.pin) ==> r == Some(Refusal(400, "PIN must be 4 digits"))
    ensures userId.Some? && ValidPin(req.pin) && req.accountId == "" ==> r == Some(Refusal(400, "Account ID is required"))
    ensures r == Some(Refusal(401, "Invalid old PIN")) <==>
              && userId.Some? && ValidPin(req.pin) && req.accountId != "" && req.verifiedVia == "old_pin"
              && (FirstPinOf(pins, userId.value).None? || !compare(req.oldPin, FirstPinOf(pins, userId.value).value.hashedPin))
    ensures r.None? <==>
              && userId.Some? && ValidPin(req.pin) && req.accountId != ""
              && (req.verifiedVia == "old_pin" ==>
                    FirstPinOf(pins, userId.value).Some? && compare(req.oldPin, FirstPinOf(pins, userId.value).value.hashedPin))
  {
    if userId.None? then Some(Refusal(401, "Authentication required"))
    else if !ValidPin(req.pin) then Some(Refusal(400, "PIN must be 4 digits"))
    else if req.accountId == "" then Some(Refusal(400, "Account ID is required"))
    else if req.verifiedVia == "old_pin" then
      var existing := FirstPinOf(pins, userId.value);
      if existing.None? || !compare(req.oldPin, existing.value.hashedPin) then Some(Refusal(401, "Invalid old PIN"))
      else None
    else None
  }

  /** The upsert on the (user, account) key: the row's hash and update time
      are replaced, or a new row is appended. */
  function UpsertPin(pins: seq<UserPin>, userId: string, accountId: string, hashedPin: string, now: int)
    : (r: seq<UserPin>)
    ensures PinRow(r, userId, accountId) == Some(UserPin(userId, accountId, hashedPin, now)) || !UniquePinKeys(pins)
    ensures |r| == |pins| || |r| == |pins| + 1
    ensures PinIndex(pins, userId, accountId).Some? <==> |r| == |pins|
    ensures forall i :: 0 <= i < |pins| && (pins[i].userId != userId || pins[i].accountId != accountId) ==>
              r[i] == pins[i]
    ensures UniquePinKeys(pins) ==> UniquePinKeys(r)
  {
    match PinIndex(pins, userId, accountId)
    case Some(i) =>
      var r := pins[i := UserPin(userId, accountId, hashedPin, now)];
      assert UniquePinKeys(pins) ==> PinIndex(r, userId, accountId) == Some(i) by {
        if UniquePinKeys(pins) {
          UniqueKeyIndex(r, userId, accountId, i);
        }
      }
      r
    case None =>
      var r := pins + [UserPin(userId, accountId, hashedPin, now)];
      assert UniquePinKeys(pins) ==> UniquePinKeys(r) by {
        assert forall i :: 0 <= i < |pins| ==> pins[i] in pins;
      }
      assert UniquePinKeys(pins) ==> PinIndex(r, userId, accountId) == Some(|pins|) by {
        if UniquePinKeys(pins) {
          UniqueKeyIndex(r, userId, accountId, |pins|);
        }
      }
      r
  }

  /** In a store without duplicate keys, the row found for a key is the one
      at the position holding that key. */
  lemma UniqueKeyIndex(pins: seq<UserPin>, userId: string, accountId: string, i: nat)
    requires i < |pins| && pins[i].userId == userId && pins[i].accountId == accountId
    requires UniquePinKeys(pins)
    ensures PinIndex(pins, userId, accountId) == Some(i)
  {
  }

  /** `POST /api/pin/set`. `hashedPin` is the bcrypt hash of the new PIN;
      `userId` is the caller, `BearerAuth.LenientUserId` of the request's
      `Authorization` header. */
  method SetPin(store: Store, userId: Option<string>, req: SetPinRequest, compare: Compare,
                hashedPin: string, now: int) returns (r: Response<string>)
    requires store.Valid()
    modifies store`pins
    ensures store.Valid()
    ensures SetPinRefusal(old(store.pins), userId, req, compare).Some? ==>
              && r == Error(SetPinRefusal(old(store.pins), userId, req, compare).value.status,
                            SetPinRefusal(old(store.pins), userId, req, compare).value.message)
              && store.pins == old(store.pins)
    ensures SetPinRefusal(old(store.pins), userId, req, compare).None? ==>
              && r == Ok("PIN set successfully")
              && store.pins == UpsertPin(old(store.pins), userId.value, TargetAccount(req.accountId), hashedPin, now)
  {
    var refusal := SetPinRefusal(store.pins, userId, req, compare);
    if refusal.Some? {
      return Error(refusal.value.status, refusal.value.message);
    }
    store.pins := UpsertPin(store.pins, userId.value, TargetAccount(req.accountId), hashedPin, now);
    r := Ok("PIN set successfully");
  }

  /** A PIN just set is the one checked next: verifying a PIN for the same
      account compares it with the new hash. */
  lemma SetThenVerify(pins: seq<UserPin>, userId: string, accountId: string, hashedPin: string, now: int,
                      pin: string, compare: Compare)
    requires UniquePinKeys(pins)
    requires ValidPin(pin) && accountId != "" && !(pin == "0000" && accountId == "dummy")
    ensures var after := UpsertPin(pins, userId, TargetAccount(accountId), hashedPin, now);
            VerifyPin(after, Some(userId), pin, accountId, compare) ==
              PinChecked(compare(pin, hashedPin), if compare(pin, hashedPin) then VerifiedMessage else InvalidPinMessage)
  {
  }

  /** Setting one account's PIN leaves every other key's row in place. */
  lemma SetLeavesOtherKeys(pins: seq<UserPin>, userId: string, accountId: string, hashedPin: string, now: int,
                           otherUser: string, otherAccount: string)
    requires UniquePinKeys(pins)
    requires otherUser != userId || otherAccount != accountId
    ensures PinRow(UpsertPin(pins, userId, accountId, hashedPin, now), otherUser, otherAccount) ==
              PinRow(pins, otherUser, otherAccount)
  {
    var after := UpsertPin(pins, userId, accountId, hashedPin, now);
    match PinIndex(pins, otherUser, otherAccount)
    case Some(i) =>
      UniqueKeyIndex(after, otherUser, otherAccount, i);
    case None =>
      assert PinIndex(after, otherUser, otherAccount).None?;
  }
}
