/** `POST` and `GET /api/voice/enroll`: stores a user's voice embedding
    (re-enrolment needs the security PIN) and reports when the enrolment
    expires, 90 days after its last update. */
module VoiceEnroll {
  import opened Common
  import opened AgentDb
  import opened PinVerify

  /** One day, in ms. */
  const Day := 86_400_000
  const ExpiryDays := 90

  datatype EnrollReply =
    | Enrolled                                    // "Voice profile enrolled successfully"
    | EnrollRefused(refusal: Refusal, needsPin: bool)

  /** The checks of `POST`, in order: a caller (401), an embedding array
      (400); then, only when the user already has a profile, a PIN (403,
      asking for it), a stored PIN of the user (400) that the PIN matches
      (401). `embedding` is None when it is missing or not an array.
      `userId` is the caller, `BearerAuth.LenientUserId` of the request's
      `Authorization` header, here and in `Enroll` and `Status`. */
  function EnrollRefusal(profiles: map<string, VoiceProfile>, pins: seq<UserPin>, userId: Option<string>,
                         embedding: Option<seq<real>>, pin: string, compare: Compare): (r: Option<EnrollReply>)
    ensures r.Some? ==> r.value.EnrollRefused?
    ensures userId.None? ==> r == Some(EnrollRefused(Refusal(401, "Unauthorized"), false))
    ensures userId.Some? && embedding.None? ==> r == Some(EnrollRefused(Refusal(400, "Invalid embedding data"), false))
    ensures userId.Some? && embedding.Some? && userId.value !in profiles ==> r.None?
    ensures r == Some(EnrollRefused(Refusal(403, "PIN verification required for voice re-enrollment"), true)) <==>
              userId.Some? && embedding.Some? && userId.value in profiles && pin == ""
    ensures r == Some(EnrollRefused(Refusal(400, "Security PIN not set. Please set up a PIN first."), false)) <==>
              userId.Some? && embedding.Some? && userId.value in profiles && pin != "" &&
              FirstPinOf(pins, userId.value).None?
    ensures r == Some(EnrollRefused(Refusal(401, "Invalid security PIN"), false)) <==>
              userId.Some? && embedding.Some? && userId.value in profiles && pin != "" &&
              FirstPinOf(pins, userId.value).Some? && !compare(pin, FirstPinOf(pins, userId.value).value.hashedPin)
    ensures r.None? <==>
              && userId.Some? && embedding.Some?
              && (userId.value in profiles ==>
                    pin != "" && FirstPinOf(pins, userId.value).Some? &&
                    compare(pin, FirstPinOf(pins, userId.value).value.hashedPin))
  {
    if userId.None? then Some(EnrollRefused(Refusal(401, "Unauthorized"), false))
    else if embedding.None? then Some(EnrollRefused(Refusal(400, "Invalid embedding data"), false))
    else if userId.value !in profiles then None
    else if pin == "" then Some(EnrollRefused(Refusal(403, "PIN verification required for voice re-enrollment"), true))
    else
      var stored := FirstPinOf(pins, userId.value);
      if stored.None? then Some(EnrollRefused(Refusal(400, "Security PIN not set. Please set up a PIN first."), false))
      else if !compare(pin, stored.value.hashedPin) then Some(EnrollRefused(Refusal(401, "Invalid security PIN"), false))
      else None
  }

  /** The profile the upsert leaves: an existing one gets the new embedding
      and update time and keeps its creation time; a new one is created now. */
  function EnrolledProfile(profiles: map<string, VoiceProfile>, userId: string, embedding: seq<real>, now: int)
    : (p: VoiceProfile)
    ensures p.userId == userId && p.embedding == embedding && p.updatedAt == now
    ensures userId in profiles ==> p.createdAt == profiles[userId].createdAt
    ensures userId !in profiles ==> p.createdAt == now
  {
    if userId in profiles then VoiceProfile(userId, embedding, profiles[userId].createdAt, now)
    else VoiceProfile(userId, embedding, now, now)
  }

  /** `POST /api/voice/enroll`. */
  method Enroll(store: Store, userId: Option<string>, embedding: Option<seq<real>>, pin: string,
                compare: Compare, now: int) returns (r: EnrollReply)
    requires store.Valid()
    modifies store`voiceProfiles
    ensures store.Valid()
    ensures var refusal := EnrollRefusal(old(store.voiceProfiles), store.pins, userId, embedding, pin, compare);
            if refusal.Some? then r == refusal.value && store.voiceProfiles == old(store.voiceProfiles)
            else
              && r == Enrolled
              && store.voiceProfiles ==
                   old(store.voiceProfiles)[userId.value := EnrolledProfile(old(store.voiceProfiles), userId.value, embedding.value, now)]
  {
    var refusal := EnrollRefusal(store.voiceProfiles, store.pins, userId, embedding, pin, compare);
    if refusal.Some? {
      return refusal.value;
    }
    var profile := EnrolledProfile(store.voiceProfiles, userId.value, embedding.value, now);
    store.voiceProfiles := store.voiceProfiles[userId.value := profile];
    r := Enrolled;
  }

  /** A first enrolment needs no PIN at all. */
  lemma FirstEnrolmentNeedsNoPin(profiles: map<string, VoiceProfile>, pins: seq<UserPin>, userId: string,
                                 embedding: seq<real>, compare: Compare)
    requires userId !in profiles
    ensures EnrollRefusal(profiles, pins, Some(userId), Some(embedding), "", compare).None?
  {
  }

  /** `Math.ceil(ms / Day)` for a whole number of ms. */
  function CeilDays(ms: int): (r: int)
    ensures Day * (r - 1) < ms <= Day * r
  {
    -((-ms) / Day)
  }

  /** When an enrolment last updated at `updatedAt` expires. */
  function ExpiryOf(updatedAt: int): int {
    updatedAt + ExpiryDays * Day
  }

  datatype EnrollmentStatus =
    | StatusUnauthorized                           // 401
    | NotEnrolled                                  // exists: false
    | EnrollmentInfo(isExpired: bool, daysUntilExpiry: int, lastUpdated: int, expiresAt: int)

  /** `GET /api/voice/enroll`. */
  function Status(profiles: map<string, VoiceProfile>, userId: Option<string>, now: int): (r: EnrollmentStatus)
    ensures userId.None? ==> r == StatusUnauthorized
    ensures userId.Some? ==> (r == NotEnrolled <==> userId.value !in profiles)
    ensures r.EnrollmentInfo? ==>
              && r.lastUpdated == profiles[userId.value].updatedAt
              && r.expiresAt == r.lastUpdated + 90 * Day
              && (r.isExpired <==> now > r.expiresAt)
              && r.daysUntilExpiry >= 0
              && (r.isExpired ==> r.daysUntilExpiry == 0)
              && (!r.isExpired ==> Day * (r.daysUntilExpiry - 1) < r.expiresAt - now <= Day * r.daysUntilExpiry)
  {
    if userId.None? then StatusUnauthorized
    else if userId.value !in profiles then NotEnrolled
    else
      var lastUpdated := profiles[userId.value].updatedAt;
      var expiresAt := ExpiryOf(lastUpdated);
      EnrollmentInfo(now > expiresAt, Max(0, CeilDays(expiresAt - now)), lastUpdated, expiresAt)
  }

  /** Right after an enrolment the profile is live for the full 90 days. */
  lemma FreshEnrolmentHasNinetyDays(profiles: map<string, VoiceProfile>, userId: string, embedding: seq<real>, now: int)
    ensures var after := profiles[userId := EnrolledProfile(profiles, userId, embedding, now)];
            Status(after, Some(userId), now) == EnrollmentInfo(false, 90, now, now + 90 * Day)
  {
    assert CeilDays(90 * Day) == 90;
  }

  /** The days left count down: never more than 90 once the update time has
      passed, and an expired enrolment has none. */
  lemma DaysLeftBounded(profiles: map<string, VoiceProfile>, userId: string, now: int)
    requires userId in profiles && profiles[userId].updatedAt <= now
    ensures var s := Status(profiles, Some(userId), now);
            0 <= s.daysUntilExpiry <= 90
  {
    var s := Status(profiles, Some(userId), now);
    if !s.isExpired {
      assert Day * (s.daysUntilExpiry - 1) < 90 * Day;
    }
  }
}
