/** The ai-agent's own database: the audit log of agent actions, the users'
    hashed security PINs (one per user and account) and the enrolled voice
    profiles (one per user). */
module AgentDb {
  import opened Common

  /** One row of the audit log. `parsedIntentJson` is the JSON text of
      `{action, ...metadata, timestamp}`; `createdAt` is set when the row is
      created and never updated. */
  datatype AuditEntry = AuditEntry(
    traceId: string, userId: string, rawCommandText: string, parsedIntentJson: string, createdAt: int)

  /** A stored PIN, unique per (user, account). */
  datatype UserPin = UserPin(userId: string, accountId: string, hashedPin: string, updatedAt: int)

  /** A voice profile, unique per user. */
  datatype VoiceProfile = VoiceProfile(userId: string, embedding: seq<real>, createdAt: int, updatedAt: int)

  /** No two PIN rows share their (user, account) key. */
  ghost predicate UniquePinKeys(pins: seq<UserPin>) {
    forall i, j :: 0 <= i < j < |pins| ==>
      pins[i].userId != pins[j].userId || pins[i].accountId != pins[j].accountId
  }

  /** `findFirst({where: {bankingUserId}})`: the first PIN row of the user in
      store order. */
  function FirstPinOf(pins: seq<UserPin>, userId: string): (r: Option<UserPin>)
    ensures r.None? <==> forall p :: p in pins ==> p.userId != userId
    ensures r.Some? ==> r.value in pins && r.value.userId == userId
  {
    if pins == [] then None
    else if pins[0].userId == userId then Some(pins[0])
    else FirstPinOf(pins[1..], userId)
  }

  /** The position of the (user, account) row, or None. */
  function PinIndex(pins: seq<UserPin>, userId: string, accountId: string): (r: Option<nat>)
    ensures r.None? <==> forall p :: p in pins ==> p.userId != userId || p.accountId != accountId
    ensures r.Some? ==> r.value < |pins| && pins[r.value].userId == userId && pins[r.value].accountId == accountId
  {
    if pins == [] then None
    else if pins[0].userId == userId && pins[0].accountId == accountId then Some(0)
    else
      var rest := PinIndex(pins[1..], userId, accountId);
      if rest.None? then
        assert forall p :: p in pins ==> p == pins[0] || p in pins[1..];
        None
      else Some(rest.value + 1)
  }

  class Store {
    var audit: map<string, AuditEntry>          // by trace id
    var pins: seq<UserPin>
    var voiceProfiles: map<string, VoiceProfile>  // by banking user id

    ghost predicate Valid()
      reads this
    {
      && (forall t :: t in audit ==> audit[t].traceId == t)
      && UniquePinKeys(pins)
      && (forall u :: u in voiceProfiles ==> voiceProfiles[u].userId == u)
    }

    constructor ()
      ensures Valid()
      ensures audit == map[] && pins == [] && voiceProfiles == map[]
    {
      audit := map[];
      pins := [];
      voiceProfiles := map[];
    }
  }
}
