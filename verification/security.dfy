/** The agent's safety layer: an in-memory rate limiter keyed by user, the
    fraud rules applied to commands, the audit log writer and the
    plain-language explanation of a decision. */
module Security {
  import opened Common
  import opened AgentDb
  import BankDb

  /** A rate-limit window: how many calls it has counted and when it ends. */
  datatype Window = Window(userId: string, count: int, resetAt: int)

  /** What `checkRateLimit` returns. */
  datatype RateDecision = RateDecision(allowed: bool, remaining: int, resetAt: int)

  /** The key of a user's window. It does not depend on the limit or the
      window length asked for, so every caller shares one counter. */
  function RateKey(userId: string): string {
    "ratelimit:" + userId
  }

  /** Whether a call at `now` starts a new window: none exists, or the stored
      one ended strictly before `now`. */
  predicate StartsWindow(windows: map<string, Window>, userId: string, now: int) {
    RateKey(userId) !in windows || windows[RateKey(userId)].resetAt < now
  }

  /** The window after counting one call at `now`: a new window of
      `windowMs` holding this call, or the current one with one more call
      (its end unchanged, whatever `windowMs` this caller asked for). */
  function Counted(windows: map<string, Window>, userId: string, windowMs: int, now: int): (w: Window)
    ensures StartsWindow(windows, userId, now) ==> w.count == 1 && w.resetAt == now + windowMs
    ensures !StartsWindow(windows, userId, now) ==>
              w.count == windows[RateKey(userId)].count + 1 && w.resetAt == windows[RateKey(userId)].resetAt >= now
  {
    if StartsWindow(windows, userId, now) then Window(userId, 1, now + windowMs)
    else
      var w := windows[RateKey(userId)];
      w.(count := w.count + 1)
  }

  /** The windows that outlive `t`: sweeping deletes exactly those that
      ended strictly before `t`. */
  function Swept(windows: map<string, Window>, t: int): (r: map<string, Window>)
    ensures forall k :: k in r <==> k in windows && windows[k].resetAt >= t
    ensures forall k :: k in r ==> r[k] == windows[k]
  {
    map k | k in windows && windows[k].resetAt >= t :: windows[k]
  }

  /** The store after one `checkRateLimit` call: the counted window stored,
      then, on the calls that sweep (about one in a hundred, at random), a
      sweep at the time `sweepAt` read then. */
  function RateStep(windows: map<string, Window>, userId: string, windowMs: int, now: int,
                    sweepAt: Option<int>): map<string, Window>
  {
    var counted := windows[RateKey(userId) := Counted(windows, userId, windowMs, now)];
    if sweepAt.Some? then Swept(counted, sweepAt.value) else counted
  }

  class RateLimiter {
    var windows: map<string, Window>

    constructor ()
      ensures windows == map[]
    {
      windows := map[];
    }

    /** `checkRateLimit(userId, maxRequests, windowMs)`. The call is counted
        before the comparison, so a refused call still uses up the window. */
    method CheckRateLimit(userId: string, maxRequests: int, windowMs: int, now: int, sweepAt: Option<int>)
      returns (r: RateDecision)
      modifies this
      ensures var w := Counted(old(windows), userId, windowMs, now);
              && r == RateDecision(w.count <= maxRequests, Max(0, maxRequests - w.count), w.resetAt)
              && windows == RateStep(old(windows), userId, windowMs, now, sweepAt)
    {
      var key := RateKey(userId);
      var entry: Window;
      if key !in windows || windows[key].resetAt < now {
        entry := Window(userId, 0, now + windowMs);
      } else {
        entry := windows[key];
      }
      entry := entry.(count := entry.count + 1);
      windows := windows[key := entry];
      var allowed := entry.count <= maxRequests;
      var remaining := Max(0, maxRequests - entry.count);
      if sweepAt.Some? {
        Sweep(sweepAt.value);
      }
      r := RateDecision(allowed, remaining, entry.resetAt);
    }

    /** The sweep loop: deletes, one key at a time, every window that ended
        strictly before `t`. */
    method Sweep(t: int)
      modifies this
      ensures windows == Swept(old(windows), t)
    {
      ghost var original := windows;
      var pending := windows.Keys;
      while pending != {}
        invariant pending <= original.Keys
        invariant forall k :: k in windows ==> k in original && windows[k] == original[k]
        invariant forall k :: k in pending ==> k in windows
        invariant forall k :: k in original && k !in pending ==> (k in windows <==> original[k].resetAt >= t)
        decreases pending
      {
        var k :| k in pending;
        if windows[k].resetAt < t {
          windows := windows - {k};
        }
        pending := pending - {k};
      }
      assert windows.Keys == Swept(original, t).Keys;
    }
  }

  /** The windows after a run of calls by one user at the given times (no
      sweeps). */
  function Calls(windows: map<string, Window>, userId: string, windowMs: int, times: seq<int>): map<string, Window>
    decreases |times|
  {
    if times == [] then windows
    else
      var next := windows[RateKey(userId) := Counted(windows, userId, windowMs, times[0])];
      Calls(next, userId, windowMs, times[1..])
  }

  /** Calls that all fall before the end of a live window add one to its
      count each and leave its end where it was. */
  lemma {:induction false} CallsInsideWindow(windows: map<string, Window>, userId: string, windowMs: int,
                                             times: seq<int>, c: int, resetAt: int)
    requires RateKey(userId) in windows && windows[RateKey(userId)].count == c
    requires windows[RateKey(userId)].resetAt == resetAt
    requires forall i :: 0 <= i < |times| ==> times[i] <= resetAt
    ensures var after := Calls(windows, userId, windowMs, times);
            RateKey(userId) in after && after[RateKey(userId)].count == c + |times| &&
            after[RateKey(userId)].resetAt == resetAt
    decreases |times|
  {
    if times != [] {
      var next := windows[RateKey(userId) := Counted(windows, userId, windowMs, times[0])];
      CallsInsideWindow(next, userId, windowMs, times[1..], c + 1, resetAt);
    }
  }

  /** A window counts every call made before it ends: starting a window at
      `times[0]`, the n-th call in it sees count n, so with a limit of
      `maxRequests` the call after the limit is refused. */
  lemma WindowCountsEveryCall(windows: map<string, Window>, userId: string, windowMs: int, times: seq<int>)
    requires |times| >= 1 && windowMs >= 0
    requires StartsWindow(windows, userId, times[0])
    requires forall i :: 0 <= i < |times| ==> times[i] <= times[0] + windowMs
    ensures var after := Calls(windows, userId, windowMs, times);
            RateKey(userId) in after && after[RateKey(userId)].count == |times| &&
            after[RateKey(userId)].resetAt == times[0] + windowMs
  {
    var next := windows[RateKey(userId) := Counted(windows, userId, windowMs, times[0])];
    CallsInsideWindow(next, userId, windowMs, times[1..], 1, times[0] + windowMs);
  }

  /** The call after the limit: with `maxRequests + 1` calls inside one
      window, the last one is refused and has nothing remaining. */
  lemma CallAfterLimitIsRefused(windows: map<string, Window>, userId: string, windowMs: int,
                                maxRequests: nat, times: seq<int>, now: int)
    requires windowMs >= 0 && |times| == maxRequests
    requires StartsWindow(windows, userId, if times == [] then now else times[0])
    requires forall i :: 0 <= i < |times| ==> times[i] <= now
    requires times != [] ==> now <= times[0] + windowMs
    ensures var before := Calls(windows, userId, windowMs, times);
            var w := Counted(before, userId, windowMs, now);
            w.count > maxRequests && Max(0, maxRequests - w.count) == 0
  {
    WindowCountsEveryCall(windows, userId, windowMs, times + [now]);
    CallsAppend(windows, userId, windowMs, times, now);
  }

  /** One more call after a run is the run's windows counted once more. */
  lemma {:induction false} CallsAppend(windows: map<string, Window>, userId: string, windowMs: int,
                                       times: seq<int>, now: int)
    ensures var before := Calls(windows, userId, windowMs, times);
            Calls(windows, userId, windowMs, times + [now]) ==
              before[RateKey(userId) := Counted(before, userId, windowMs, now)]
    decreases |times|
  {
    if times == [] {
      assert times + [now] == [now];
    } else {
      var next := windows[RateKey(userId) := Counted(windows, userId, windowMs, times[0])];
      assert (times + [now])[1..] == times[1..] + [now];
      CallsAppend(next, userId, windowMs, times[1..], now);
    }
  }

  /** A sweep at `t` keeps the window just counted, unchanged, exactly when
      that window has not ended before `t`. The sweep time is a second clock
      read, so it may fall after `now`: a window ending at `now` that is
      counted and then swept a millisecond later is deleted. */
  lemma SweepKeepsLiveWindows(windows: map<string, Window>, userId: string, windowMs: int, now: int, t: int)
    ensures var after := RateStep(windows, userId, windowMs, now, Some(t));
            (RateKey(userId) in after <==> t <= Counted(windows, userId, windowMs, now).resetAt) &&
            (RateKey(userId) in after ==> after[RateKey(userId)] == Counted(windows, userId, windowMs, now))
  {
  }

  const PaymentAction := "MAKE_PAYMENT"
  /** ₹50,000, in paise. */
  const AmountThreshold := 5_000_000
  const ThresholdReason := "Payment amount exceeds normal threshold of \U{20B9}50,000"
  const InvalidAmountReason := "Invalid payment amount"
  const BurstReason := "Too many payment requests in short time. Please wait a moment."
  const AttemptsReason := "Too many payment attempts in a short time"
  const SlowDownReason := "Too many requests. Please slow down."
  /** Two minutes, in ms. */
  const RecentSpan := 120_000

  /** The amount rules, applied only when the amount is truthy: a missing or
      zero amount is not checked at all. */
  function AmountReasons(amount: Option<int>): (r: seq<string>)
    ensures |r| <= 1
    ensures r == [ThresholdReason] <==> amount.Some? && amount.value > AmountThreshold
    ensures r == [InvalidAmountReason] <==> amount.Some? && amount.value < 0
    ensures r == [] <==> amount.None? || 0 <= amount.value <= AmountThreshold
  {
    // The two rules exclude each other, so at most one of them fires.
    if amount.None? || amount.value == 0 then []
    else if amount.value > AmountThreshold then [ThresholdReason]
    else if amount.value <= 0 then [InvalidAmountReason]
    else []
  }

  /** The user's audit rows from the last two minutes whose intent text
      mentions MAKE_PAYMENT. */
  function RecentPaymentTraces(audit: map<string, AuditEntry>, userId: string, now: int): set<string>
  {
    set t | t in audit && audit[t].userId == userId && Contains(audit[t].parsedIntentJson, PaymentAction)
                       && audit[t].createdAt >= now - RecentSpan
  }

  /** The reasons `detectFraudulentActivity` finds. A payment is checked for
      its amount, for a burst of more than 3 calls in a 30 s window and for
      five or more recent payment rows; any other action only for more than
      20 calls in a 60 s window. Both windows are the user's one rate-limit
      window. */
  function FraudReasons(windows: map<string, Window>, userId: string, action: string, amount: Option<int>,
                        audit: map<string, AuditEntry>, now: int): (r: seq<string>)
    ensures action == PaymentAction ==>
              (BurstReason in r <==> Counted(windows, userId, 30_000, now).count > 3)
    ensures action == PaymentAction ==>
              (AttemptsReason in r <==> |RecentPaymentTraces(audit, userId, now)| >= 5)
    ensures action == PaymentAction ==>
              |AmountReasons(amount)| <= |r| && r[..|AmountReasons(amount)|] == AmountReasons(amount)
    ensures action == PaymentAction ==>
              |r| == |AmountReasons(amount)|
                     + (if Counted(windows, userId, 30_000, now).count > 3 then 1 else 0)
                     + (if |RecentPaymentTraces(audit, userId, now)| >= 5 then 1 else 0)
    ensures action == PaymentAction ==>
              (r == [] <==> AmountReasons(amount) == [] && Counted(windows, userId, 30_000, now).count <= 3 &&
                            |RecentPaymentTraces(audit, userId, now)| < 5)
    ensures action != PaymentAction ==>
              r == (if Counted(windows, userId, 60_000, now).count > 20 then [SlowDownReason] else [])
  {
    if action == PaymentAction then
      var amountReasons := AmountReasons(amount);
      var burst := if Counted(windows, userId, 30_000, now).count > 3 then [BurstReason] else [];
      var attempts := if |RecentPaymentTraces(audit, userId, now)| >= 5 then [AttemptsReason] else [];
      assert BurstReason !in amountReasons && AttemptsReason !in amountReasons + burst by {
        assert BurstReason != ThresholdReason && BurstReason != InvalidAmountReason;
        assert AttemptsReason != ThresholdReason && AttemptsReason != InvalidAmountReason;
        assert AttemptsReason != BurstReason;
      }
      assert (amountReasons + burst + attempts)[..|amountReasons|] == amountReasons;
      amountReasons + burst + attempts
    else if Counted(windows, userId, 60_000, now).count > 20 then [SlowDownReason]
    else []
  }

  /** `detectFraudulentActivity`, which also counts the call in the user's
      rate-limit window. */
  method DetectFraud(limiter: RateLimiter, userId: string, action: string, amount: Option<int>,
                     audit: map<string, AuditEntry>, now: int, sweepAt: Option<int>)
    returns (isFraudulent: bool, reasons: seq<string>)
    modifies limiter
    ensures reasons == FraudReasons(old(limiter.windows), userId, action, amount, audit, now)
    ensures isFraudulent <==> reasons != []
    ensures limiter.windows ==
              RateStep(old(limiter.windows), userId, if action == PaymentAction then 30_000 else 60_000, now, sweepAt)
  {
    reasons := [];
    if action == PaymentAction {
      reasons := AmountReasons(amount);
      var rate := limiter.CheckRateLimit(userId, 3, 30_000, now, sweepAt);
      if !rate.allowed {
        reasons := reasons + [BurstReason];
      }
      if |RecentPaymentTraces(audit, userId, now)| >= 5 {
        reasons := reasons + [AttemptsReason];
      }
    } else {
      var rate := limiter.CheckRateLimit(userId, 20, 60_000, now, sweepAt);
      if !rate.allowed {
        reasons := reasons + [SlowDownReason];
      }
    }
    isFraudulent := |reasons| > 0;
  }

  /** The JSON text of `{action, ...metadata, timestamp}`, where
      `metadataJson` is the serialised metadata fields, each preceded by a
      comma, and `timestamp` the ISO text of the current time. */
  function IntentJson(action: string, metadataJson: string, timestamp: string): string {
    "{\"action\":\"" + action + "\"" + metadataJson + ",\"timestamp\":\"" + timestamp + "\"}"
  }

  /** The stored intent text names the action, which is what the recent
      payment rule looks for. */
  lemma IntentJsonNamesAction(action: string, metadataJson: string, timestamp: string)
    ensures Contains(IntentJson(action, metadataJson, timestamp), action)
  {
    var s := IntentJson(action, metadataJson, timestamp);
    assert s[11..11 + |action|] == action;
    assert OccursAt(s, action, 11);
    ContainsAt(s, action);
  }

  /** The audit row `logAIAction` leaves under `traceId`: an existing row
      gets the new user, command and intent text and keeps its creation
      time; otherwise a new row is created at `now`. */
  function LoggedEntry(audit: map<string, AuditEntry>, traceId: string, userId: string, input: string,
                       parsedIntentJson: string, now: int): (e: AuditEntry)
    ensures e.traceId == traceId && e.userId == userId && e.rawCommandText == input
    ensures e.parsedIntentJson == parsedIntentJson
    ensures traceId in audit ==> e.createdAt == audit[traceId].createdAt
    ensures traceId !in audit ==> e.createdAt == now
  {
    if traceId in audit then
      audit[traceId].(traceId := traceId, userId := userId, rawCommandText := input, parsedIntentJson := parsedIntentJson)
    else AuditEntry(traceId, userId, input, parsedIntentJson, now)
  }

  /** `logAIAction`: upserts the row of the given trace id, or of the fresh
      `TRACE_…` id `freshTraceId` when none is given, and returns that id.
      The `result` column (the reply as JSON) is not modelled. */
  method LogAIAction(store: Store, userId: string, action: string, input: string, metadataJson: string,
                     timestamp: string, providedTraceId: string, freshTraceId: string, now: int)
    returns (traceId: string)
    requires store.Valid()
    modifies store`audit
    ensures store.Valid()
    ensures traceId == (if providedTraceId != "" then providedTraceId else freshTraceId)
    ensures store.audit == old(store.audit)[traceId :=
              LoggedEntry(old(store.audit), traceId, userId, input, IntentJson(action, metadataJson, timestamp), now)]
  {
    traceId := if providedTraceId != "" then providedTraceId else freshTraceId;
    var json := IntentJson(action, metadataJson, timestamp);
    if traceId in store.audit {
      var row := store.audit[traceId];
      store.audit := store.audit[traceId := row.(userId := userId, rawCommandText := input, parsedIntentJson := json)];
    } else {
      store.audit := store.audit[traceId := AuditEntry(traceId, userId, input, json, now)];
    }
  }

  /** A payment logged under a new trace id counts towards the recent
      payment rule for the next two minutes. */
  lemma LoggedPaymentCounts(audit: map<string, AuditEntry>, traceId: string, userId: string, input: string,
                            metadataJson: string, timestamp: string, now: int, later: int)
    requires traceId !in audit
    requires now <= later <= now + RecentSpan
    ensures var entry := LoggedEntry(audit, traceId, userId, input, IntentJson(PaymentAction, metadataJson, timestamp), now);
            RecentPaymentTraces(audit[traceId := entry], userId, later) == RecentPaymentTraces(audit, userId, later) + {traceId}
  {
    IntentJsonNamesAction(PaymentAction, metadataJson, timestamp);
  }

  const ExplainPrefix := "I understood your request as: "
  const AllowedSentence := "This payment is allowed based on your account rules. "

  predicate EndsWith(s: string, suffix: string) {
    |suffix| <= |s| && s[|s| - |suffix|..] == suffix
  }

  /** `explainAIDecision`. `amountText` and `payeeText` are the amount and the
      payee as JavaScript prints them ("undefined" when absent). */
  function ExplainAIDecision(intent: string, amountText: string, payeeText: string, paymentMethod: string,
                             rulesResult: Option<BankDb.RulesResult>): (r: string)
    ensures StartsWith(r, ExplainPrefix + intent + ". ")
    ensures intent !in {PaymentAction, "CHECK_BALANCE", "SHOW_TRANSACTIONS"} ==> r == ExplainPrefix + intent + ". "
    ensures intent == PaymentAction && rulesResult.Some? && rulesResult.value.allowed ==> EndsWith(r, AllowedSentence)
    ensures intent == PaymentAction && rulesResult.Some? && !rulesResult.value.allowed ==>
              EndsWith(r, "This payment cannot be processed: " + Join(rulesResult.value.reasons, ", ") + ". ")
    ensures intent == PaymentAction ==>
              Contains(r, " via " + (if paymentMethod == "" then "UPI" else paymentMethod) + ". ")
  {
    var head := ExplainPrefix + intent + ". ";
    if intent == PaymentAction then
      var method_ := if paymentMethod == "" then "UPI" else paymentMethod;
      var summary := "You want to pay \U{20B9}" + amountText + " to " + payeeText + " via " + method_ + ". ";
      var verdict :=
        if rulesResult.None? then ""
        else if rulesResult.value.allowed then AllowedSentence
        else "This payment cannot be processed: " + Join(rulesResult.value.reasons, ", ") + ". ";
      var r := head + summary + verdict;
      var part := " via " + method_ + ". ";
      assert summary == "You want to pay \U{20B9}" + amountText + " to " + payeeText + part;
      assert summary[|summary| - |part|..] == part;
      ExplainMentionsMethod(head, summary, verdict, part);
      assert r[..|head|] == head;
      assert r[|r| - |verdict|..] == verdict;
      r
    else if intent == "CHECK_BALANCE" then head + "I'll retrieve your current account balance. "
    else if intent == "SHOW_TRANSACTIONS" then head + "I'll show your recent transaction history. "
    else head
  }

  /** A sentence that ends the middle piece occurs in the whole text. */
  lemma ExplainMentionsMethod(head: string, middle: string, tail: string, part: string)
    requires EndsWith(middle, part)
    ensures Contains(head + middle + tail, part)
  {
    var s := head + middle + tail;
    var i := |head| + |middle| - |part|;
    assert s[i..i + |part|] == middle[|middle| - |part|..];
    assert OccursAt(s, part, i);
    ContainsAt(s, part);
  }
}
