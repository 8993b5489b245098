/** `POST /api/pin/verify`: checks a four-digit security PIN against the
    stored hash for the user and account, falling back to any PIN of the
    user. Reads the PIN store and changes nothing. */
module PinVerify {
  import opened Common
  import opened OAuth
  import opened BearerAuth
  import opened AgentDb

  /** `bcrypt.compare(plain, hash)`. */
  type Compare = (string, string) -> bool

  datatype PinReply =
    | PinRefused(refusal: Refusal)                 // 401 or 400
    | NoPinSet                                     // 404: verified false, needsSetup true
    | PinProbed                                    // verified false, needsSetup false
    | PinChecked(verified: bool, message: string)  // needsSetup false

  const VerifiedMessage := "PIN verified successfully"
  const VerifiedByDefaultMessage := "PIN verified successfully (using default PIN)"
  const InvalidPinMessage := "Invalid PIN. Please try again."

  /** `/^\d{4}$/`: exactly four ASCII digits. */
  predicate ValidPin(pin: string) {
    |pin| == 4 && AllAsciiDigits(pin)
  }

  /** The account a PIN belongs to: "dummy" stands for "default-account". */
  function TargetAccount(accountId: string): (r: string)
    ensures accountId == "dummy" ==> r == "default-account"
    ensures accountId != "dummy" ==> r == accountId
  {
    if accountId == "dummy" then "default-account" else accountId
  }

  /** `findUnique` on the (user, account) key. */
  function PinRow(pins: seq<UserPin>, userId: string, accountId: string): (r: Option<UserPin>)
    ensures r.None? <==> forall p :: p in pins ==> p.userId != userId || p.accountId != accountId
    ensures r.Some? ==> r.value in pins && r.value.userId == userId && r.value.accountId == accountId
  {
    match PinIndex(pins, userId, accountId)
    case None => None
    case Some(i) => Some(pins[i])
  }

  /** `POST /api/pin/verify`. The probe ("0000" for account "dummy") only
      says whether the user has any PIN. Otherwise the PIN of the (user,
      account) pair is compared, or failing that the user's first PIN.
      `userId` is the caller, `BearerAuth.LenientUserId` of the request's
      `Authorization` header. */
  function VerifyPin(pins: seq<UserPin>, userId: Option<string>, pin: string, accountId: string,
                     compare: Compare): (r: PinReply)
    ensures userId.None? ==> r == PinRefused(Refusal(401, "Authentication required"))
    ensures userId.Some? && pin == "0000" && accountId == "dummy" ==>
              r == (if FirstPinOf(pins, userId.value).None? then NoPinSet else PinProbed)
    ensures r == PinRefused(Refusal(400, "PIN must be 4 digits")) <==>
              userId.Some? && !(pin == "0000" && accountId == "dummy") && !ValidPin(pin)
    ensures r == PinRefused(Refusal(400, "Account ID is required")) <==>
              userId.Some? && !(pin == "0000" && accountId == "dummy") && ValidPin(pin) && accountId == ""
    ensures r.PinChecked? ==> ValidPin(pin) && accountId != "" && !(pin == "0000" && accountId == "dummy")
    ensures r.PinChecked? ==> (r.verified <==> r.message != InvalidPinMessage)
    ensures r.PinChecked? && r.verified ==>
              exists p :: p in pins && p.userId == userId.value && compare(pin, p.hashedPin)
    ensures userId.Some? && ValidPin(pin) && accountId != "" && !(pin == "0000" && accountId == "dummy") ==>
              match PinRow(pins, userId.value, TargetAccount(accountId))
              case Some(row) =>
                r == PinChecked(compare(pin, row.hashedPin),
                                if compare(pin, row.hashedPin) then VerifiedMessage else InvalidPinMessage)
              case None =>
                match FirstPinOf(pins, userId.value)
                case None => r == NoPinSet
                case Some(any) =>
                  r == PinChecked(compare(pin, any.hashedPin),
                                  if compare(pin, any.hashedPin) then VerifiedByDefaultMessage else InvalidPinMessage)
  {
    if userId.None? then PinRefused(Refusal(401, "Authentication required"))
    else if pin == "0000" && accountId == "dummy" then
      if FirstPinOf(pins, userId.value).None? then NoPinSet else PinProbed
    else if !ValidPin(pin) then PinRefused(Refusal(400, "PIN must be 4 digits"))
    else if accountId == "" then PinRefused(Refusal(400, "Account ID is required"))
    else
      match PinRow(pins, userId.value, TargetAccount(accountId))
      case Some(row) =>
        var verified := compare(pin, row.hashedPin);
        PinChecked(verified, if verified then VerifiedMessage else InvalidPinMessage)
      case None =>
        match FirstPinOf(pins, userId.value)
        case None => NoPinSet
        case Some(any) =>
          var verified := compare(pin, any.hashedPin);
          PinChecked(verified, if verified then VerifiedByDefaultMessage else InvalidPinMessage)
  }

  /** The probe never verifies anything, whatever the store holds. */
  lemma ProbeNeverVerifies(pins: seq<UserPin>, userId: string, compare: Compare)
    ensures !VerifyPin(pins, Some(userId), "0000", "dummy", compare).PinChecked?
  {
  }

  /** Asking for the "dummy" account is asking for "default-account". */
  lemma DummyIsDefaultAccount(pins: seq<UserPin>, userId: Option<string>, pin: string, compare: Compare)
    requires pin != "0000"
    ensures VerifyPin(pins, userId, pin, "dummy", compare) == VerifyPin(pins, userId, pin, "default-account", compare)
  {
  }
}
