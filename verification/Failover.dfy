/** The failover loop of the proxy: attempts on distinct keys, one at a time, until
    one answers for the request. */
module Failover {
  import opened Common
  import opened Ledger
  import opened Evidence
  import opened Replies
  import opened Terminals
  import Streams = Streaming

  /** How many keys may be tried: one for images and videos, else every listed one. */
  function KeyAttempts(single: bool, listed: nat): (n: nat)
    ensures n >= 1 && (single ==> n == 1)
  {
    if single then 1 else Max(listed, 1)
  }

  // ---- The attempts ------------------------------------------------------------

  predicate Distinct(keys: seq<KeyId>) {
    forall i, j | 0 <= i < j < |keys| :: keys[i] != keys[j]
  }

  /** The attempts are on these keys, in this order. */
  predicate On(attempts: seq<AttemptRow>, keys: seq<KeyId>) {
    |attempts| == |keys| && forall i | 0 <= i < |keys| :: attempts[i].key == keys[i]
  }

  /** The first `n` attempts all ended in a retryable 429. */
  predicate FirstLimited(attempts: seq<AttemptRow>, n: int) {
    forall i | 0 <= i < n && i < |attempts| :: attempts[i].end == LIMITED
  }

  function Keys(attempts: seq<AttemptRow>): (keys: seq<KeyId>)
    ensures On(attempts, keys)
  {
    seq(|attempts|, i requires 0 <= i < |attempts| => attempts[i].key)
  }

  lemma OnIsKeys(attempts: seq<AttemptRow>, keys: seq<KeyId>)
    requires On(attempts, keys)
    ensures Keys(attempts) == keys
  {}

  lemma KeysStay(a: Record, b: Record, keys: seq<KeyId>)
    requires Follows(a, b) && On(a.attempts, keys) && |b.attempts| == |a.attempts|
    ensures On(b.attempts, keys)
  {
    forall i | 0 <= i < |keys| ensures FrozenAttempt(a.attempts[i], b.attempts[i]) {}
  }

  /** Rows that only move forward keep the keys and the ends of closed attempts. */
  lemma AttemptsStay(a: Record, b: Record, keys: seq<KeyId>, n: nat)
    requires Follows(a, b) && On(a.attempts, keys) && |b.attempts| == |a.attempts| && n <= |keys|
    requires forall i | 0 <= i < n :: !Open(a.attempts[i])
    ensures On(b.attempts, keys) && (FirstLimited(b.attempts, n) <==> FirstLimited(a.attempts, n))
  {
    forall i | 0 <= i < |keys| ensures FrozenAttempt(a.attempts[i], b.attempts[i]) {}
  }

  /** The newest attempt ended like this. */
  predicate LastEnded(r: Record, end: Terminal, bytesOut: Option<nat>) {
    r.attempts != []
    && var last := r.attempts[|r.attempts| - 1]; !Open(last) && last.end == end && last.bytesOut == bytesOut
  }

  lemma FinishAttemptLands(r: Record, key: KeyId, end: Terminal, leased: bool, owner: OwnerId, now: Time, at: Moment)
    requires Consistent(r) && OnKey(r, key) && Owned(r, leased, owner) && !end.outcome.Started?
    ensures var tx := FinishAttempt(key, end, None);
            var landed := Land(r, leased, tx, owner, now, at);
            && |landed.attempts| == |r.attempts|
            && (HoldsSuccess(landed) <==> HoldsSuccess(r))
            && (Answer(r, leased, tx, owner, now, at).Done? <==> InFlight(r) && at == SMOOTH)
            && (Answer(r, leased, tx, owner, now, at).Done? ==>
                  && InFlight(landed) && NoneOpen(landed) && r.attempts != []
                  && landed.attempts[|r.attempts| - 1].end == end && LastEnded(landed, end, None))
  {
    FoundKeepsOutcome(r, leased, FinishAttempt(key, end, None), owner, now, at, key);
    hide Cleaned;
    var found := Found(r, owner, now, at);
    if InFlight(found) {
      assert NewestOpen(found.attempts, key, owner) == Some(|found.attempts| - 1);
    } else {
      assert forall i | 0 <= i < |found.attempts| :: !Open(found.attempts[i]);
    }
  }

  lemma StartAttemptLands(r: Record, key: KeyId, leased: bool, owner: OwnerId, now: Time, at: Moment)
    requires Consistent(r) && NoneOpen(r) && Owned(r, leased, owner) && InFlight(r)
    ensures var tx := StartAttempt(key);
            var landed := Land(r, leased, tx, owner, now, at);
            && (HoldsSuccess(landed) <==> HoldsSuccess(r))
            && |r.attempts| <= |landed.attempts| <= |r.attempts| + 1
            && (|landed.attempts| > |r.attempts| ==> landed.attempts[|r.attempts|].key == key)
            && (Answer(r, leased, tx, owner, now, at).Done? <==> at == SMOOTH && |r.attempts| < MAX_ATTEMPTS)
            && (at == SMOOTH && |r.attempts| >= MAX_ATTEMPTS ==> landed == r)
            && (Answer(r, leased, tx, owner, now, at).Done? ==>
                  InFlight(landed) && OnKey(landed, key) && |landed.attempts| == |r.attempts| + 1)
  {
    FoundIsSound(r, leased, StartAttempt(key), owner, now, at);
    MaxNumberOfNumbered(r.attempts);
  }

  /** An attempt on the last key is under way; `limited` tells of those before it. */
  ghost predicate Trying(evidence: RequestEvidence, keys: seq<KeyId>, limited: bool)
    reads evidence, evidence.store
  {
    && evidence.Valid() && !evidence.terminal && !HoldsSuccess(evidence.store.record)
    && keys != [] && Distinct(keys) && On(evidence.store.record.attempts, keys)
    && OnKey(evidence.store.record, keys[|keys| - 1])
    && (limited <==> FirstLimited(evidence.store.record.attempts, |keys| - 1))
  }

  /** The attempts so far are over, the request is not. */
  ghost predicate Between(evidence: RequestEvidence, keys: seq<KeyId>, limited: bool)
    reads evidence, evidence.store
  {
    && evidence.Valid() && !evidence.terminal && !HoldsSuccess(evidence.store.record)
    && Distinct(keys) && On(evidence.store.record.attempts, keys)
    && InFlight(evidence.store.record) && NoneOpen(evidence.store.record)
    && (limited <==> FirstLimited(evidence.store.record.attempts, |keys|))
  }

  /** What the response tells of the ledger. */
  predicate Settles(response: Response, r: Record) {
    match response
    case Ok(status, bytes) =>
      Recorded(r, Terminal(Succeeded, Some(status), None), Some(bytes), Terminal(Succeeded, Some(status), None))
    case UpstreamError(cause) => Closed(r) && r.request.value.end == Failure(Some(502), cause)
    case Rejection(status) =>
      Closed(r) && r.request.value.end == Terminal(Rejected, Some(status), Some(RequestRejected))
    case RateLimited => Closed(r) && r.request.value.end == ALL_LIMITED && FirstLimited(r.attempts, |r.attempts|)
    case NoEligible => Closed(r) && r.request.value.end == NONE_ELIGIBLE && !FirstLimited(r.attempts, |r.attempts|)
    case Streaming(key) => InFlight(r) && OnKey(r, key) && !HoldsSuccess(r)
    case LedgerUnavailable => !HoldsSuccess(r)
    case RecordUnavailable => true
    case Gone => true
  }

  lemma OthersAreClosed(r: Record)
    requires Consistent(r)
    ensures forall i | 0 <= i < |r.attempts| - 1 :: !Open(r.attempts[i])
  {}

  /** An await on other tables while an attempt is under way. */
  method AwaitElsewhere(evidence: RequestEvidence, ghost keys: seq<KeyId>, ghost limited: bool) returns (reply: Reply)
    requires Trying(evidence, keys, limited)
    modifies evidence.store`clock, evidence.store`record, evidence.store`leased, evidence.store`steps
    ensures Trying(evidence, keys, limited) && Follows(old(evidence.store.record), evidence.store.record)
    ensures evidence.store.clock == old(evidence.store.clock) + 1
    ensures reply.Done? <==> evidence.store.script(old(evidence.store.clock)).fate.Commits?
    ensures reply.Dropped? <==> Drops(evidence.store.script(old(evidence.store.clock)).fate)
    ensures InFlight(evidence.store.record) <==>
              InFlight(old(evidence.store.record)) && !evidence.store.script(old(evidence.store.clock)).takenOver
  {
    hide Consistent, Lawful, Land, Answer, OnKey, HoldsSuccess, Follows, Attempted, FirstLimited, On, CleanedUp;
    var store := evidence.store;
    ghost var before := store.record;
    ElsewhereKeeps(before, store.leased, store.owner, store.clock, store.script(store.clock), keys[|keys| - 1]);
    LandingAddsNone(before, store.leased, OtherTables, store.owner, store.clock, store.script(store.clock));
    AnswersDone(before, store.leased, OtherTables, store.owner, store.clock, store.script(store.clock));
    OthersAreClosed(before);
    reply := evidence.Await(OtherTables);
    assert On(before.attempts, keys);
    OnHasLength(before.attempts, keys);
    AttemptsStay(before, store.record, keys, |keys| - 1);
  }

  lemma OnHasLength(attempts: seq<AttemptRow>, keys: seq<KeyId>)
    requires On(attempts, keys)
    ensures |attempts| == |keys|
  {}

  /** Ends the attempt under way together with the request. */
  method Finish(evidence: RequestEvidence, ghost keys: seq<KeyId>, ghost limited: bool, key: KeyId,
                end: Terminal, bytesOut: Option<nat>, request: Terminal) returns (reply: Reply)
    requires Trying(evidence, keys, limited) && key == keys[|keys| - 1]
    requires !end.outcome.Started? && !request.outcome.Started?
    modifies evidence`terminal, evidence`permitAcquired, evidence`dropRecovery
    modifies evidence.store`clock, evidence.store`record, evidence.store`leased
    modifies evidence.store`steps, evidence.store`retrying, evidence.store`holder
    ensures evidence.Valid() && Follows(old(evidence.store.record), evidence.store.record)
    ensures On(evidence.store.record.attempts, keys) && evidence.store.clock > old(evidence.store.clock)
    ensures limited <==> FirstLimited(evidence.store.record.attempts, |keys| - 1)
    ensures reply.Done? ==> evidence.terminal && Recorded(evidence.store.record, end, bytesOut, request)
    ensures HoldsSuccess(evidence.store.record) ==> request.outcome.Succeeded?
    ensures InFlight(old(evidence.store.record)) && evidence.store.Smooth(old(evidence.store.clock)) ==> reply.Done?
  {
    hide Consistent, Lawful, Land, Answer, OnKey, HoldsSuccess, Owned, Attempted, FirstLimited, On, Recorded, EndsAs,
         Would;
    var store := evidence.store;
    ghost var before := store.record;
    ghost var tx := FinishBoth(key, end, bytesOut, request);
    ghost var landed := evidence.Landed(before, store.leased, tx, store.clock);
    FinishBothRecords(before, key, end, bytesOut, request, store.leased, store.owner, store.clock,
                      store.script(store.clock));
    RecordedIsClosed(landed, end, bytesOut, request);
    OthersAreClosed(before);
    OnHasLength(before.attempts, keys);
    reply := evidence.FinishWithAttempt(key, end, bytesOut, request, false);
    SettlesAsLanded(landed, store.record, key);
    assert |store.record.attempts| == |landed.attempts|;
    AttemptsStay(before, store.record, keys, |keys| - 1);
    if reply.Done? {
      RecordedStays(landed, store.record, end, bytesOut, request);
    }
  }

  /** `select_failover_key`: the first eligible key not yet attempted. */
  function FirstUntried(eligible: seq<KeyId>, attempted: seq<KeyId>): (key: Option<KeyId>)
    ensures key.Some? ==> IsFirstUntried(eligible, attempted, key.value)
    ensures key.None? ==> forall k | k in eligible :: k in attempted
  {
    if eligible == [] then None
    else if eligible[0] !in attempted then Some(eligible[0])
    else
      var rest := FirstUntried(eligible[1..], attempted);
      assert rest.Some? ==> IsFirstUntried(eligible, attempted, rest.value) by {
        if rest.Some? {
          var i :| 0 <= i < |eligible| - 1 && eligible[1..][i] == rest.value
                   && forall j | 0 <= j < i :: eligible[1..][j] in attempted;
          assert eligible[i + 1] == rest.value;
          forall j | 0 <= j < i + 1 ensures eligible[j] in attempted {
            assert j > 0 ==> eligible[j] == eligible[1..][j - 1];
          }
        }
      }
      rest
  }

  /** The key is eligible and untried, and all eligible ones before it were tried. */
  predicate IsFirstUntried(eligible: seq<KeyId>, attempted: seq<KeyId>, key: KeyId) {
    && key !in attempted
    && exists i | 0 <= i < |eligible| :: eligible[i] == key && forall j | 0 <= j < i :: eligible[j] in attempted
  }

  predicate SomeUntried(eligible: seq<KeyId>, attempted: seq<KeyId>) {
    exists key | key in eligible :: key !in attempted
  }

  /** Ends the attempt alone, so that another key may be tried. */
  method FinishAttemptOnly(evidence: RequestEvidence, ghost keys: seq<KeyId>, ghost limited: bool, key: KeyId,
                           end: Terminal)
      returns (reply: Reply)
    requires Trying(evidence, keys, limited) && key == keys[|keys| - 1] && !end.outcome.Started?
    modifies evidence`dropRecovery
    modifies evidence.store`clock, evidence.store`record, evidence.store`leased, evidence.store`steps
    ensures evidence.Valid() && !evidence.terminal && Follows(old(evidence.store.record), evidence.store.record)
    ensures On(evidence.store.record.attempts, keys) && !HoldsSuccess(evidence.store.record)
    ensures reply.Done? ==> Between(evidence, keys, limited && end == LIMITED)
    ensures reply.Done? ==> LastEnded(evidence.store.record, end, None)
    ensures evidence.store.clock == old(evidence.store.clock) + 1
    ensures reply.Done? <==>
              InFlight(old(evidence.store.record)) && evidence.store.script(old(evidence.store.clock)) == SMOOTH
  {
    hide Consistent, Lawful, Land, Answer, OnKey, HoldsSuccess, Attempted, NoneOpen;
    var store := evidence.store;
    ghost var before := store.record;
    FinishAttemptLands(before, key, end, store.leased, store.owner, store.clock, store.script(store.clock));
    OthersAreClosed(before);
    reply := evidence.Await(FinishAttempt(key, end, None));
    AttemptsStay(before, store.record, keys, |keys| - 1);
    if reply.Done? {
      evidence.dropRecovery := ABANDONED;
    }
  }

  lemma UnansweredSettles(r: Record)
    ensures Settles(Gone, r) && Settles(RecordUnavailable, r) && (Settles(LedgerUnavailable, r) <==> !HoldsSuccess(r))
  {}

  /** No further key: the attempt and the request end together. */
  method GiveUp(evidence: RequestEvidence, ghost attempted: seq<KeyId>, ghost limitedBefore: bool, key: KeyId,
                end: Terminal, limited: bool) returns (response: Response)
    requires Trying(evidence, attempted, limitedBefore) && key == attempted[|attempted| - 1]
    requires !end.outcome.Started? && (limited <==> limitedBefore && end == LIMITED)
    modifies evidence`terminal, evidence`permitAcquired, evidence`dropRecovery
    modifies evidence.store`clock, evidence.store`record, evidence.store`leased
    modifies evidence.store`steps, evidence.store`retrying, evidence.store`holder
    ensures evidence.Valid() && Follows(old(evidence.store.record), evidence.store.record)
    ensures On(evidence.store.record.attempts, attempted) && evidence.store.clock > old(evidence.store.clock)
    ensures Settles(response, evidence.store.record) && !response.Streaming?
    ensures InFlight(old(evidence.store.record)) && evidence.store.Smooth(old(evidence.store.clock)) ==>
              (response.RateLimited? || response.NoEligible?) && LastEnded(evidence.store.record, end, None)
  {
    hide Consistent, Lawful, Land, Answer, OnKey, HoldsSuccess, Attempted, NoneOpen, Owned;
    var reply := Finish(evidence, attempted, limitedBefore, key, end, None,
                        if limited then ALL_LIMITED else NONE_ELIGIBLE);
    RecordedEnded(evidence.store.record, end, None, if limited then ALL_LIMITED else NONE_ELIGIBLE);
    response := match reply
      case Done => if limited then RateLimited else NoEligible
      case Refused => RecordUnavailable
      case Dropped => Gone;
  }

  /** Goes on with another key if one may be tried, else ends the request; the
      request counts as rate limited when every attempt ended in a retryable 429. */
  method FinishRetryableOrTerminal(evidence: RequestEvidence, attempted: seq<KeyId>, ghost limitedBefore: bool,
                                   retryAllowed: bool, end: Terminal, limited: bool, eligible: seq<KeyId>)
      returns (response: Option<Response>, next: Option<KeyId>)
    requires Trying(evidence, attempted, limitedBefore)
    requires !end.outcome.Started? && (limited <==> limitedBefore && end == LIMITED)
    modifies evidence`terminal, evidence`permitAcquired, evidence`dropRecovery
    modifies evidence.store`clock, evidence.store`record, evidence.store`leased
    modifies evidence.store`steps, evidence.store`retrying, evidence.store`holder
    ensures evidence.Valid() && Follows(old(evidence.store.record), evidence.store.record)
    ensures On(evidence.store.record.attempts, attempted) && evidence.store.clock > old(evidence.store.clock)
    ensures response.None? <==>
              && retryAllowed && FirstUntried(eligible, attempted).Some?
              && InFlight(old(evidence.store.record)) && evidence.store.Smooth(old(evidence.store.clock))
    ensures response.None? ==> Between(evidence, attempted, limited) && next == FirstUntried(eligible, attempted)
    ensures response.None? ==> LastEnded(evidence.store.record, end, None)
    ensures response.Some? ==> Settles(response.value, evidence.store.record) && !response.value.Streaming?
    ensures response.Some? && InFlight(old(evidence.store.record))
            && evidence.store.Smooth(old(evidence.store.clock)) ==>
              && (response.value.RateLimited? || response.value.NoEligible?)
              && LastEnded(evidence.store.record, end, None)
  {
    hide Consistent, Lawful, Land, Answer, OnKey, HoldsSuccess, Attempted, NoneOpen, Owned, InFlight, FirstUntried,
         Settles, Between, On, FirstLimited, Follows;
    var store := evidence.store;
    ghost var before := store.record;
    FollowsItself(before);
    var key := attempted[|attempted| - 1];
    next := None;
    if retryAllowed {
      var reply := AwaitElsewhere(evidence, attempted, limitedBefore);
      if reply.Dropped? {
        UnansweredSettles(store.record);
        return Some(Gone), None;
      }
      next := if reply.Done? then FirstUntried(eligible, attempted) else None;
      if next.Some? {
        ghost var between := store.record;
        reply := FinishAttemptOnly(evidence, attempted, limitedBefore, key, end);
        FollowsIsTransitive(before, between, store.record);
        UnansweredSettles(store.record);
        response := match reply
          case Done => None
          case Refused => Some(LedgerUnavailable)
          case Dropped => Some(Gone);
        return;
      }
    }
    ghost var between := store.record;
    var last := GiveUp(evidence, attempted, limitedBefore, key, end, limited);
    FollowsIsTransitive(before, between, store.record);
    response := Some(last);
  }

  predicate Separate(attempts: seq<AttemptRow>, limit: nat) {
    |attempts| <= limit && forall i, j | 0 <= i < j < |attempts| :: attempts[i].key != attempts[j].key
  }

  lemma OnDistinctIsSeparate(attempts: seq<AttemptRow>, keys: seq<KeyId>, limit: nat)
    requires On(attempts, keys) && Distinct(keys) && |keys| <= limit
    ensures Separate(attempts, limit)
  {}

  /** `start_evidenced_attempt`. */
  method Begin(evidence: RequestEvidence, ghost keys: seq<KeyId>, ghost limited: bool, key: KeyId)
      returns (reply: Reply)
    requires Between(evidence, keys, limited) && key !in keys
    modifies evidence`dropRecovery
    modifies evidence.store`clock, evidence.store`record, evidence.store`leased, evidence.store`steps
    ensures evidence.Valid() && !evidence.terminal && Follows(old(evidence.store.record), evidence.store.record)
    ensures !HoldsSuccess(evidence.store.record)
    ensures On(evidence.store.record.attempts, keys) || On(evidence.store.record.attempts, keys + [key])
    ensures reply.Done? ==> Trying(evidence, keys + [key], limited) && InFlight(evidence.store.record)
    ensures evidence.store.clock == old(evidence.store.clock) + 1
    ensures reply.Done? <==> evidence.store.script(old(evidence.store.clock)) == SMOOTH && |keys| < MAX_ATTEMPTS
    ensures evidence.store.script(old(evidence.store.clock)) == SMOOTH && |keys| >= MAX_ATTEMPTS ==>
              On(evidence.store.record.attempts, keys)
  {
    hide Consistent, Lawful, Land, Answer, OnKey, HoldsSuccess, Attempted;
    var store := evidence.store;
    ghost var before := store.record;
    StartAttemptLands(before, key, store.leased, store.owner, store.clock, store.script(store.clock));
    evidence.dropRecovery := EvidenceFailure(0);
    reply := evidence.Await(StartAttempt(key));
    AttemptsGrow(before, store.record, keys, key);
    if reply.Done? {
      evidence.dropRecovery := ABANDONED;
    }
  }

  lemma AttemptsGrow(a: Record, b: Record, keys: seq<KeyId>, key: KeyId)
    requires Follows(a, b) && On(a.attempts, keys) && NoneOpen(a)
    requires |a.attempts| <= |b.attempts| <= |a.attempts| + 1
    requires |b.attempts| > |a.attempts| ==> b.attempts[|a.attempts|].key == key
    ensures On(b.attempts, if |b.attempts| > |a.attempts| then keys + [key] else keys)
    ensures FirstLimited(b.attempts, |keys|) <==> FirstLimited(a.attempts, |keys|)
  {
    forall i | 0 <= i < |keys| ensures FrozenAttempt(a.attempts[i], b.attempts[i]) {}
  }

  /** The guard of a stream that is handed to the client. */
  ghost predicate Handed(guard: Streams.StreamAttemptGuard?, evidence: RequestEvidence, key: KeyId)
    reads if guard != null then {guard, guard.request, guard.request.store} else {}
  {
    && guard != null && guard.Valid() && guard.request == evidence && guard.streamed == key
    && !guard.terminal && guard.bytesOut == 0
    && guard.dropEnd == Terminal(Cancelled, Some(200), Some(DownstreamCancelled))
  }

  /** The guard goes away in the middle: it closes what is open with what is armed. */
  method DropGuard(guard: Streams.StreamAttemptGuard, evidence: RequestEvidence, ghost keys: seq<KeyId>)
    requires guard.Valid() && guard.request == evidence && On(evidence.store.record.attempts, keys)
    requires !HoldsSuccess(evidence.store.record)
    modifies evidence`terminal, evidence`permitAcquired, evidence`dropRecovery
    modifies evidence.store`clock, evidence.store`record, evidence.store`leased
    modifies evidence.store`steps, evidence.store`retrying, evidence.store`holder
    ensures evidence.Valid() && Follows(old(evidence.store.record), evidence.store.record)
    ensures On(evidence.store.record.attempts, keys) && !HoldsSuccess(evidence.store.record)
    ensures evidence.store.clock >= old(evidence.store.clock)
  {
    hide Consistent, Lawful, Owned, HoldsSuccess, Follows, On, EndsAs;
    ghost var before := evidence.store.record;
    guard.CloseArmed();
    KeysStay(before, evidence.store.record, keys);
  }

  /** Hands the open attempt over to the response body. */
  method StartStreaming(evidence: RequestEvidence, ghost keys: seq<KeyId>, ghost limited: bool, key: KeyId)
      returns (response: Response, guard: Streams.StreamAttemptGuard?)
    requires Trying(evidence, keys, limited) && key == keys[|keys| - 1]
    modifies evidence`terminal, evidence`permitAcquired, evidence`dropRecovery
    modifies evidence.store`clock, evidence.store`record, evidence.store`leased
    modifies evidence.store`steps, evidence.store`retrying, evidence.store`holder
    ensures evidence.Valid() && Follows(old(evidence.store.record), evidence.store.record)
    ensures On(evidence.store.record.attempts, keys) && Settles(response, evidence.store.record)
    ensures response in {Streaming(key), LedgerUnavailable, Gone}
    ensures response.Streaming? ==> !evidence.terminal && Handed(guard, evidence, key) && fresh(guard)
    ensures evidence.store.clock > old(evidence.store.clock)
    ensures InFlight(old(evidence.store.record)) && evidence.store.Smooth(old(evidence.store.clock)) ==>
              response.Streaming?
  {
    hide Consistent, Lawful, FirstLimited, Land, Answer, OnKey, Follows, On, Recorded;
    var store := evidence.store;
    ghost var before := store.record;
    OthersAreClosed(before);
    OnHasLength(before.attempts, keys);
    guard := new Streams.StreamAttemptGuard(evidence, key);
    guard.ArmEvidenceFailure(0);
    ResponseStartedLands(before, key, store.leased, store.owner, store.clock, store.script(store.clock));
    var reply := evidence.Await(ResponseStarted(key));
    AttemptsStay(before, store.record, keys, |keys| - 1);
    ghost var between := store.record;
    if reply.Done? {
      guard.MarkResponseCommitted(200);
      return Streaming(key), guard;
    }
    DropGuard(guard, evidence, keys);
    FollowsIsTransitive(before, between, store.record);
    response := if reply.Refused? then LedgerUnavailable else Gone;
  }

  lemma ResponseStartedLands(r: Record, key: KeyId, leased: bool, owner: OwnerId, now: Time, at: Moment)
    requires Consistent(r) && OnKey(r, key) && Owned(r, leased, owner)
    ensures var landed := Land(r, leased, ResponseStarted(key), owner, now, at);
            && (HoldsSuccess(landed) <==> HoldsSuccess(r)) && OnKey(landed, key) && |landed.attempts| == |r.attempts|
            && (Answer(r, leased, ResponseStarted(key), owner, now, at).Done? ==> landed == r && InFlight(r))
            && (InFlight(r) && at == SMOOTH ==> Answer(r, leased, ResponseStarted(key), owner, now, at).Done?)
  {
    FoundKeepsOutcome(r, leased, ResponseStarted(key), owner, now, at, key);
    hide Cleaned;
    var found := Found(r, owner, now, at);
    if !InFlight(found) {
      assert forall i | 0 <= i < |found.attempts| :: !Open(found.attempts[i]);
    }
  }

  /** The health or accounting update that precedes an end, armed as an evidence
      failure in case it goes wrong. */
  method UpdateHealth(evidence: RequestEvidence, ghost keys: seq<KeyId>, ghost limited: bool, bytes: nat)
      returns (response: Option<Response>)
    requires Trying(evidence, keys, limited)
    modifies evidence`dropRecovery
    modifies evidence.store`clock, evidence.store`record, evidence.store`leased, evidence.store`steps
    ensures Trying(evidence, keys, limited) && Follows(old(evidence.store.record), evidence.store.record)
    ensures response.Some? ==>
              response.value in {LedgerUnavailable, Gone} && Settles(response.value, evidence.store.record)
    ensures evidence.store.clock == old(evidence.store.clock) + 1
    ensures response.None? <==> evidence.store.script(old(evidence.store.clock)).fate.Commits?
    ensures InFlight(evidence.store.record) <==>
              InFlight(old(evidence.store.record)) && !evidence.store.script(old(evidence.store.clock)).takenOver
  {
    hide Consistent, Lawful, Owned, OnKey, HoldsSuccess, On, FirstLimited, Follows;
    evidence.dropRecovery := EvidenceFailure(bytes);
    var reply := AwaitElsewhere(evidence, keys, limited);
    response := match reply
      case Done => None
      case Refused => Some(LedgerUnavailable)
      case Dropped => Some(Gone);
  }

  /** The same for a stream that brought no first frame: its guard owns the request
      until the update is done, and closes it if the update goes wrong. */
  method UpdateHealthGuarded(evidence: RequestEvidence, ghost keys: seq<KeyId>, ghost limited: bool, key: KeyId)
      returns (response: Option<Response>)
    requires Trying(evidence, keys, limited) && key == keys[|keys| - 1]
    modifies evidence`terminal, evidence`permitAcquired, evidence`dropRecovery
    modifies evidence.store`clock, evidence.store`record, evidence.store`leased
    modifies evidence.store`steps, evidence.store`retrying, evidence.store`holder
    ensures evidence.Valid() && Follows(old(evidence.store.record), evidence.store.record)
    ensures On(evidence.store.record.attempts, keys)
    ensures response.None? ==> Trying(evidence, keys, limited) && evidence.store.clock == old(evidence.store.clock) + 1
    ensures response.None? ==>
              (InFlight(evidence.store.record) <==>
                 InFlight(old(evidence.store.record)) && !evidence.store.script(old(evidence.store.clock)).takenOver)
    ensures response.Some? ==>
              response.value in {LedgerUnavailable, Gone} && Settles(response.value, evidence.store.record)
    ensures response.None? <==> evidence.store.script(old(evidence.store.clock)).fate.Commits?
    ensures evidence.store.clock > old(evidence.store.clock)
  {
    hide Consistent, Lawful, Owned, OnKey, HoldsSuccess, On, FirstLimited, Follows;
    var store := evidence.store;
    ghost var before := store.record;
    OnHasLength(before.attempts, keys);
    var guard := new Streams.StreamAttemptGuard(evidence, key);
    guard.ArmEvidenceFailure(0);
    var reply := AwaitElsewhere(evidence, keys, limited);
    OnHasLength(store.record.attempts, keys);
    ghost var between := store.record;
    if reply.Done? {
      var _ := guard.ReleaseRequest();
      return None;
    }
    DropGuard(guard, evidence, keys);
    FollowsIsTransitive(before, between, store.record);
    response := Some(if reply.Refused? then LedgerUnavailable else Gone);
  }

  predicate Ends(v: Verdict) {
    match v
    case Retry(end, _, _, _) => !end.outcome.Started?
    case Stop(end, _, request, response, _) =>
      && !end.outcome.Started? && !request.outcome.Started? && !request.outcome.Succeeded?
      && (match response
          case UpstreamError(cause) => request == Failure(Some(502), cause)
          case Rejection(status) => request == Terminal(Rejected, Some(status), Some(RequestRejected))
          case _ => false)
    case _ => true
  }

  lemma JudgedEnds(mode: Mode, turn: Turn)
    ensures Ends(Judge(mode, turn))
    ensures Judge(mode, turn).Retry? && Is429(turn.provider) ==> Judge(mode, turn).failover
  {}

  /** Another key is tried next: the reply allows it, one is left, and every await on
      the way goes well. */
  ghost predicate GoesOn(mode: Mode, turn: Turn, retryAllowed: bool, attempted: seq<KeyId>, before: Record,
                         store: Store, since: nat)
    reads store
  {
    && AllowsAnother(mode, turn) && retryAllowed && SomeUntried(turn.eligible, attempted)
    && InFlight(before) && store.Smooth(since)
  }

  /** A job the provider accepted (202) goes to another key exactly when it was polled
      to an end, its body then broke off, and another key may be and can be tried. */
  lemma AcceptedJobIsRetriedExactly(mode: Mode, turn: Turn, retryAllowed: bool, attempted: seq<KeyId>, before: Record,
                                    store: Store, since: nat)
    requires turn.provider.Replied? && turn.provider.status == 202
    ensures GoesOn(mode, turn, retryAllowed, attempted, before, store, since) <==>
              && (mode.Media? || (mode.polls && !mode.stream)) && turn.provider.polled.Some?
              && turn.provider.body.BrokenBody?
              && retryAllowed && (exists key :: key in turn.eligible && key !in attempted)
              && InFlight(before) && store.Smooth(since)
  {
    AcceptedJobAllowsAnother(mode, turn);
  }

  /** What acting on a verdict leaves when every await goes well. */
  predicate ActedOn(verdict: Verdict, key: KeyId, response: Response, r: Record) {
    match verdict
    case Retry(end, _, _, _) => (response.RateLimited? || response.NoEligible?) && LastEnded(r, end, None)
    case Stop(end, bytesOut, _, answer, _) => response == answer && LastEnded(r, end, bytesOut)
    case Accepted(status, bytes) =>
      response == Ok(status, bytes) && LastEnded(r, Terminal(Succeeded, Some(status), None), Some(bytes))
    case StreamOn => response == Streaming(key)
  }

  lemma RecordedEnded(r: Record, end: Terminal, bytesOut: Option<nat>, row: Terminal)
    ensures Recorded(r, end, bytesOut, row) ==> LastEnded(r, end, bytesOut)
  {}

  /** Then the answer is the one the reply earns, and the attempt ended accordingly. */
  lemma DoneAsEarned(mode: Mode, turn: Turn, key: KeyId, response: Response, r: Record)
    ensures ActedOn(Judge(mode, turn), key, response, r) ==>
              && Earns(mode, turn, key, response)
              && (response.Streaming? || LastEndedAs(r, mode, turn))
  {
    hide Judge, Earns, EndedAs, AllowsAnother;
    JudgedAsMeant(mode, turn);
    RetriesEarn(mode, turn, key, response);
  }

  lemma RetriesEarn(mode: Mode, turn: Turn, key: KeyId, response: Response)
    ensures AllowsAnother(mode, turn) && (response.RateLimited? || response.NoEligible?) ==>
              Earns(mode, turn, key, response)
  {}

  predicate LastEndedAs(r: Record, mode: Mode, turn: Turn) {
    r.attempts != []
    && var last := r.attempts[|r.attempts| - 1]; !Open(last) && EndedAs(mode, turn, last.end, last.bytesOut)
  }

  /** Acts on the provider's reply: another key, a body stream, or the end. */
  method Respond(evidence: RequestEvidence, attempted: seq<KeyId>, ghost limitedBefore: bool, verdict: Verdict,
                 flag: bool, retryAllowed: bool, eligible: seq<KeyId>)
      returns (response: Option<Response>, next: Option<KeyId>, guard: Streams.StreamAttemptGuard?)
    requires Trying(evidence, attempted, limitedBefore) && Ends(verdict)
    requires verdict.Retry? ==> (verdict.failover && flag <==> limitedBefore && verdict.end == LIMITED)
    modifies evidence`terminal, evidence`permitAcquired, evidence`dropRecovery
    modifies evidence.store`clock, evidence.store`record, evidence.store`leased
    modifies evidence.store`steps, evidence.store`retrying, evidence.store`holder
    ensures evidence.Valid() && Follows(old(evidence.store.record), evidence.store.record)
    ensures On(evidence.store.record.attempts, attempted) && evidence.store.clock > old(evidence.store.clock)
    ensures response.None? <==>
              && verdict.Retry? && retryAllowed && FirstUntried(eligible, attempted).Some?
              && InFlight(old(evidence.store.record)) && evidence.store.Smooth(old(evidence.store.clock))
    ensures response.None? ==>
              Between(evidence, attempted, verdict.failover && flag) && next == FirstUntried(eligible, attempted)
    ensures response.None? ==> LastEnded(evidence.store.record, verdict.end, None)
    ensures response.Some? && InFlight(old(evidence.store.record))
            && evidence.store.Smooth(old(evidence.store.clock)) ==>
              ActedOn(verdict, attempted[|attempted| - 1], response.value, evidence.store.record)
    ensures response.Some? ==> Settles(response.value, evidence.store.record)
    ensures response.Some? && response.value.Streaming? ==>
              && !evidence.terminal && response.value.key == attempted[|attempted| - 1]
              && Handed(guard, evidence, response.value.key) && fresh(guard)
  {
    hide Consistent, Lawful, Owned, OnKey, HoldsSuccess, FirstLimited, Recorded, FirstUntried, InFlight, Handed,
         Follows, Between, On;
    next, guard := None, null;
    var store := evidence.store;
    ghost var before := store.record;
    FollowsItself(before);
    var key := attempted[|attempted| - 1];
    if verdict.Retry? && verdict.health && verdict.guarded {
      response := UpdateHealthGuarded(evidence, attempted, limitedBefore, key);
      if response.Some? {
        return;
      }
    } else if verdict.Accepted? || (verdict.Retry? && verdict.health) || (verdict.Stop? && verdict.health) {
      var bytes := match verdict
        case Accepted(_, n) => n
        case Stop(_, Some(n), _, _, _) => n
        case _ => 0;
      response := UpdateHealth(evidence, attempted, limitedBefore, bytes);
      if response.Some? {
        return;
      }
    }
    ghost var between := store.record;
    match verdict {
      case StreamOn =>
        var r;
        r, guard := StartStreaming(evidence, attempted, limitedBefore, key);
        response := Some(r);
      case Accepted(status, bytes) =>
        var success := Terminal(Succeeded, Some(status), None);
        var reply := Finish(evidence, attempted, limitedBefore, key, success, Some(bytes), success);
        RecordedEnded(store.record, success, Some(bytes), success);
        response := Some(if reply.Done? then Ok(status, bytes) else if reply.Refused? then RecordUnavailable else Gone);
      case Stop(end, bytesOut, request, answer, _) =>
        var reply := Finish(evidence, attempted, limitedBefore, key, end, bytesOut, request);
        response := Some(if reply.Done? then answer else if reply.Refused? then RecordUnavailable else Gone);
        RecordedRow(store.record, end, bytesOut, request);
        RecordedEnded(store.record, end, bytesOut, request);
      case Retry(end, failover, _, _) =>
        response, next :=
          FinishRetryableOrTerminal(evidence, attempted, limitedBefore, retryAllowed, end, failover && flag, eligible);
    }
    FollowsIsTransitive(before, between, store.record);
  }

  lemma RecordedRow(r: Record, end: Terminal, bytesOut: Option<nat>, row: Terminal)
    ensures Recorded(r, end, bytesOut, row) ==> Closed(r) && r.request.value.end == row
  {}

  /** The routing policy has a default, so that reading it may also fail. */
  predicate PolicyRead(at: Moment) {
    !at.takenOver && !Drops(at.fate)
  }

  /** One key's turn: the provider is asked, its reply judged and acted upon. Another
      key is tried next exactly when the reply allows it, a further attempt is allowed,
      an eligible key is untried, and every later await goes well; it is the first such key. */
  method OneAttempt(evidence: RequestEvidence, attempted: seq<KeyId>, all429: bool, mode: Mode, turn: Turn,
                    retryAllowed: bool)
      returns (response: Option<Response>, next: Option<KeyId>, flag: bool, guard: Streams.StreamAttemptGuard?)
    requires Trying(evidence, attempted, all429)
    modifies evidence`terminal, evidence`permitAcquired, evidence`dropRecovery
    modifies evidence.store`clock, evidence.store`record, evidence.store`leased
    modifies evidence.store`steps, evidence.store`retrying, evidence.store`holder
    ensures evidence.Valid() && Follows(old(evidence.store.record), evidence.store.record)
    ensures On(evidence.store.record.attempts, attempted) && evidence.store.clock > old(evidence.store.clock)
    ensures response.None? <==>
              && PolicyRead(evidence.store.script(old(evidence.store.clock)))
              && GoesOn(mode, turn, retryAllowed, attempted, old(evidence.store.record),
                        evidence.store, old(evidence.store.clock) + 1)
    ensures response.None? ==>
              && Between(evidence, attempted, flag) && LastEndedAs(evidence.store.record, mode, turn)
              && next.Some? && IsFirstUntried(turn.eligible, attempted, next.value)
    ensures response.Some? && InFlight(old(evidence.store.record))
            && evidence.store.Smooth(old(evidence.store.clock)) ==>
              && Earns(mode, turn, attempted[|attempted| - 1], response.value)
              && (Definite(response.value) || response.value.Streaming?)
              && (response.value.Streaming? || LastEndedAs(evidence.store.record, mode, turn))
    ensures response.Some? ==> Settles(response.value, evidence.store.record)
    ensures response.Some? && response.value.Streaming? ==>
              && !evidence.terminal && response.value.key == attempted[|attempted| - 1]
              && Handed(guard, evidence, response.value.key) && fresh(guard)
  {
    hide Consistent, Lawful, Owned, OnKey, HoldsSuccess, Recorded, Follows, Judge, Ends, FirstLimited, On, NoneOpen,
         FirstUntried, InFlight, AllowsAnother, Earns, EndedAs, LastEnded, LastEndedAs, ActedOn, IsFirstUntried,
         SomeUntried;
    var store := evidence.store;
    ghost var before := store.record;
    JudgedAsMeant(mode, turn);
    UntriedMeans(turn.eligible, attempted);
    var reply := AwaitElsewhere(evidence, attempted, all429);
    flag := all429 && Is429(turn.provider);
    if reply.Dropped? {
      return Some(Gone), None, flag, null;
    }
    ghost var between := store.record;
    var verdict := Judge(mode, turn);
    JudgedEnds(mode, turn);
    if verdict.Retry? {
      LimitedExactlyWhen429(mode, turn);
    }
    response, next, guard := Respond(evidence, attempted, all429, verdict, flag, retryAllowed, turn.eligible);
    FollowsIsTransitive(before, between, store.record);
    if response.Some? {
      DoneAsEarned(mode, turn, attempted[|attempted| - 1], response.value, store.record);
      ActedOnIsDefinite(verdict, attempted[|attempted| - 1], response.value, store.record);
    } else {
      RetriedAsMeant(mode, turn, store.record);
    }
  }

  lemma UntriedMeans(eligible: seq<KeyId>, attempted: seq<KeyId>)
    ensures FirstUntried(eligible, attempted).Some? <==> SomeUntried(eligible, attempted)
    ensures FirstUntried(eligible, attempted).Some? ==>
              IsFirstUntried(eligible, attempted, FirstUntried(eligible, attempted).value)
  {}

  lemma UntriedIsNew(eligible: seq<KeyId>, attempted: seq<KeyId>, key: KeyId)
    ensures IsFirstUntried(eligible, attempted, key) ==> key !in attempted
  {}

  lemma ActedOnIsDefinite(verdict: Verdict, key: KeyId, response: Response, r: Record)
    requires Ends(verdict)
    ensures ActedOn(verdict, key, response, r) ==> Definite(response) || response.Streaming?
  {}

  lemma RetriedAsMeant(mode: Mode, turn: Turn, r: Record)
    ensures Judge(mode, turn).Retry? && LastEnded(r, Judge(mode, turn).end, None) ==> LastEndedAs(r, mode, turn)
  {
    hide Judge, EndedAs, Earns, AllowsAnother;
    JudgedAsMeant(mode, turn);
  }

  /** Every key after the first was the first eligible untried one when the attempt
      before it ended in a way that allows another. */
  ghost predicate Chosen(keys: seq<KeyId>, mode: Mode, turns: nat -> Turn) {
    forall n | 1 <= n < |keys| ::
      AllowsAnother(mode, turns(n)) && IsFirstUntried(turns(n).eligible, keys[..n], keys[n])
  }

  /** The ways of the reply to the last attempt to lead to another one. */
  ghost predicate CouldGoOn(keys: seq<KeyId>, mode: Mode, turns: nat -> Turn, keyAttempts: nat) {
    && |keys| < keyAttempts && |keys| < MAX_ATTEMPTS
    && AllowsAnother(mode, turns(|keys|)) && SomeUntried(turns(|keys|).eligible, keys)
  }

  /** The first `n` attempts ended as the replies to them say; `turns(i + 1)` is the reply
      to attempt `i`. */
  ghost predicate EndedAsReplied(attempts: seq<AttemptRow>, n: int, mode: Mode, turns: nat -> Turn) {
    forall i | 0 <= i < n && i < |attempts| ::
      !Open(attempts[i]) && EndedAs(mode, turns(i + 1), attempts[i].end, attempts[i].bytesOut)
  }

  lemma RepliesStay(a: Record, b: Record, n: int, mode: Mode, turns: nat -> Turn)
    requires Follows(a, b) && n <= |a.attempts| && EndedAsReplied(a.attempts, n, mode, turns)
    ensures forall m | m <= n :: EndedAsReplied(b.attempts, m, mode, turns)
  {
    hide EndedAs;
    forall i | 0 <= i < n ensures FrozenAttempt(a.attempts[i], b.attempts[i]) {}
  }

  lemma NoReplyYet(r: Record, mode: Mode, turns: nat -> Turn)
    ensures EndedAsReplied(r.attempts, 0, mode, turns)
  {}

  lemma OneMoreReply(r: Record, n: nat, mode: Mode, turns: nat -> Turn)
    requires |r.attempts| == n + 1 && EndedAsReplied(r.attempts, n, mode, turns)
    ensures LastEndedAs(r, mode, turns(n + 1)) ==> EndedAsReplied(r.attempts, n + 1, mode, turns)
  {
    hide EndedAs;
  }

  lemma ChosenNext(keys: seq<KeyId>, key: KeyId, mode: Mode, turns: nat -> Turn)
    requires Chosen(keys, mode, turns) && keys != []
    requires AllowsAnother(mode, turns(|keys|)) && IsFirstUntried(turns(|keys|).eligible, keys, key)
    ensures Chosen(keys + [key], mode, turns)
  {
    hide AllowsAnother, IsFirstUntried;
    var more := keys + [key];
    forall n | 1 <= n < |more|
      ensures AllowsAnother(mode, turns(n)) && IsFirstUntried(turns(n).eligible, more[..n], more[n])
    {
      assert more[..n] == keys[..n];
      assert keys[..|keys|] == keys;
    }
  }

  lemma ChosenFirst(first: KeyId, mode: Mode, turns: nat -> Turn)
    ensures Chosen([], mode, turns) && Chosen([first], mode, turns)
  {}

  lemma TryingIsDistinct(evidence: RequestEvidence, keys: seq<KeyId>, limited: bool)
    requires Trying(evidence, keys, limited)
    ensures Distinct(keys) && evidence.Valid() && |evidence.store.record.attempts| == |keys|
  {}

  lemma BetweenIsDistinct(evidence: RequestEvidence, keys: seq<KeyId>, limited: bool)
    requires Between(evidence, keys, limited)
    ensures Distinct(keys) && evidence.Valid() && InFlight(evidence.store.record)
  {}

  /** What an answer of the loop tells of the attempts made and of the replies to them. */
  ghost predicate Told(response: Response, attempts: seq<AttemptRow>, mode: Mode, turns: nat -> Turn) {
    && attempts != [] && (Definite(response) || response.Streaming?)
    && Earns(mode, turns(|attempts|), attempts[|attempts| - 1].key, response)
    && (response.Streaming? || EndedAsReplied(attempts, |attempts|, mode, turns))
  }

  /** What the attempts tell stays so, whoever closes the rows. */
  lemma AttemptsStillTell(a: Record, b: Record, response: Response, mode: Mode, turns: nat -> Turn)
    requires Follows(a, b) && |b.attempts| == |a.attempts|
    ensures Keys(b.attempts) == Keys(a.attempts)
    ensures EndedAsReplied(a.attempts, |a.attempts| - 1, mode, turns) ==>
              EndedAsReplied(b.attempts, |b.attempts| - 1, mode, turns)
    ensures Told(response, a.attempts, mode, turns) ==> Told(response, b.attempts, mode, turns)
  {
    hide Earns, EndedAs, EndedAsReplied;
    KeysStay(a, b, Keys(a.attempts));
    OnIsKeys(b.attempts, Keys(a.attempts));
    if EndedAsReplied(a.attempts, |a.attempts| - 1, mode, turns) {
      RepliesStay(a, b, |a.attempts| - 1, mode, turns);
    }
    if EndedAsReplied(a.attempts, |a.attempts|, mode, turns) {
      RepliesStay(a, b, |a.attempts|, mode, turns);
    }
    if a.attempts != [] {
      assert FrozenAttempt(a.attempts[|a.attempts| - 1], b.attempts[|a.attempts| - 1]);
    }
  }

  /** One round of the loop: the next attempt is started, unless it is the first, and made. */
  method TryKey(evidence: RequestEvidence, attempted: seq<KeyId>, id: KeyId, all429: bool, mode: Mode,
                keyAttempts: nat, turns: nat -> Turn)
      returns (answer: Option<Response>, next: Option<KeyId>, flag: bool, guard: Streams.StreamAttemptGuard?)
    requires |attempted| < keyAttempts && id !in attempted
    requires if attempted == [] then Trying(evidence, [id], all429)
             else Between(evidence, attempted, all429) && InFlight(evidence.store.record)
    requires |attempted| <= |evidence.store.record.attempts|
    requires EndedAsReplied(evidence.store.record.attempts, |attempted|, mode, turns)
    requires Chosen(attempted, mode, turns) && Chosen(attempted + [id], mode, turns)
    modifies evidence`terminal, evidence`permitAcquired, evidence`dropRecovery
    modifies evidence.store`clock, evidence.store`record, evidence.store`leased
    modifies evidence.store`steps, evidence.store`retrying, evidence.store`holder
    ensures evidence.Valid() && Follows(old(evidence.store.record), evidence.store.record)
    ensures evidence.store.clock > old(evidence.store.clock)
    ensures answer.None? ==>
              && Between(evidence, attempted + [id], flag) && InFlight(evidence.store.record)
              && |evidence.store.record.attempts| == |attempted| + 1 < keyAttempts
              && EndedAsReplied(evidence.store.record.attempts, |attempted| + 1, mode, turns)
              && AllowsAnother(mode, turns(|attempted| + 1))
              && next.Some? && IsFirstUntried(turns(|attempted| + 1).eligible, attempted + [id], next.value)
    ensures answer.Some? ==>
              && Separate(evidence.store.record.attempts, keyAttempts)
              && Chosen(Keys(evidence.store.record.attempts), mode, turns)
              && EndedAsReplied(evidence.store.record.attempts, |evidence.store.record.attempts| - 1, mode, turns)
              && Settles(answer.value, evidence.store.record)
    ensures answer.Some? && InFlight(old(evidence.store.record)) && evidence.store.Smooth(old(evidence.store.clock)) ==>
              && !CouldGoOn(Keys(evidence.store.record.attempts), mode, turns, keyAttempts)
              && (keyAttempts <= MAX_ATTEMPTS ==> Told(answer.value, evidence.store.record.attempts, mode, turns))
    ensures answer.Some? && answer.value.Streaming? ==>
              !evidence.terminal && Handed(guard, evidence, answer.value.key) && fresh(guard)
  {
    hide Consistent, Lawful, Owned, OnKey, Recorded, Follows, On, Distinct, NoneOpen, InFlight, AllowsAnother,
         FirstLimited, IsFirstUntried, SomeUntried, Settles, Separate, Trying, Between, Chosen, Handed,
         RequestEvidence.Valid, Earns, EndedAs, EndedAsReplied, LastEndedAs;
    var store := evidence.store;
    ghost var start := store.record;
    if attempted != [] {
      BetweenIsDistinct(evidence, attempted, all429);
      var reply := Begin(evidence, attempted, all429, id);
      RepliesStay(start, store.record, |attempted|, mode, turns);
      if !reply.Done? {
        OneMoreIsSeparate(store.record.attempts, attempted, id, keyAttempts);
        UnansweredSettles(store.record);
        return Some(if reply.Dropped? then Gone else LedgerUnavailable), None, all429, null;
      }
    }
    assert attempted == [] ==> attempted + [id] == [id];
    ghost var was := store.record;
    FollowsItself(was);
    ghost var keys := attempted + [id];
    TryingIsDistinct(evidence, keys, all429);
    answer, next, flag, guard :=
      OneAttempt(evidence, attempted + [id], all429, mode, turns(|attempted| + 1), |attempted| + 1 < keyAttempts);
    FollowsIsTransitive(start, was, store.record);
    RepliesStay(was, store.record, |attempted|, mode, turns);
    OnDistinctIsSeparate(store.record.attempts, keys, keyAttempts);
    OnHasLength(store.record.attempts, keys);
    OnIsKeys(store.record.attempts, keys);
    OneMoreReply(store.record, |attempted|, mode, turns);
    if answer.None? {
      BetweenIsDistinct(evidence, keys, flag);
    }
  }

  /** The retry loop. It always answers from inside: the code behind it is never
      reached. The attempts are on distinct keys, no more than allowed, each but the
      first for the reason its predecessor's reply gave, and ended as their replies say;
      with all awaits going well they end only where no other could be made, with the
      answer the last reply earns. The answer is what the ledger holds. */
  method Forward(evidence: RequestEvidence, first: KeyId, mode: Mode, keyAttempts: nat, turns: nat -> Turn)
      returns (response: Response, guard: Streams.StreamAttemptGuard?)
    requires Trying(evidence, [first], true) && keyAttempts >= 1
    modifies evidence`terminal, evidence`permitAcquired, evidence`dropRecovery
    modifies evidence.store`clock, evidence.store`record, evidence.store`leased
    modifies evidence.store`steps, evidence.store`retrying, evidence.store`holder
    ensures evidence.Valid() && Follows(old(evidence.store.record), evidence.store.record)
    ensures Separate(evidence.store.record.attempts, keyAttempts)
    ensures Chosen(Keys(evidence.store.record.attempts), mode, turns)
    ensures EndedAsReplied(evidence.store.record.attempts, |evidence.store.record.attempts| - 1, mode, turns)
    ensures InFlight(old(evidence.store.record)) && evidence.store.Smooth(old(evidence.store.clock)) ==>
              && !CouldGoOn(Keys(evidence.store.record.attempts), mode, turns, keyAttempts)
              && (keyAttempts <= MAX_ATTEMPTS ==> Told(response, evidence.store.record.attempts, mode, turns))
    ensures Settles(response, evidence.store.record) && evidence.store.clock > old(evidence.store.clock)
    ensures response.Streaming? ==> !evidence.terminal && Handed(guard, evidence, response.key) && fresh(guard)
  {
    hide Consistent, Lawful, Owned, OnKey, Recorded, Follows, On, Distinct, NoneOpen, InFlight, AllowsAnother,
         FirstLimited, IsFirstUntried, SomeUntried, Settles, Separate, Trying, Between, Chosen, Handed,
         RequestEvidence.Valid, EndedAsReplied, Told, CouldGoOn;
    ChosenFirst(first, mode, turns);
    TryingIsDistinct(evidence, [first], true);
    NoReplyYet(evidence.store.record, mode, turns);
    response, guard := Gone, null;
    var store := evidence.store;
    ghost var start, began := store.record, store.clock;
    FollowsItself(start);
    var attempted: seq<KeyId> := [];
    var next: Option<KeyId> := None;
    var all429 := true;
    while |attempted| < keyAttempts
      invariant |attempted| < keyAttempts && evidence.Valid() && Follows(start, store.record) && store.clock >= began
      invariant attempted == [] ==>
                  && Trying(evidence, [first], true) && all429 && next.None?
                  && store.record == start && store.clock == began
      invariant attempted != [] ==>
                  && Between(evidence, attempted, all429) && InFlight(store.record)
                  && next.Some? && IsFirstUntried(turns(|attempted|).eligible, attempted, next.value)
                  && AllowsAnother(mode, turns(|attempted|))
      invariant Chosen(attempted, mode, turns)
      invariant |attempted| <= |store.record.attempts|
      invariant EndedAsReplied(store.record.attempts, |attempted|, mode, turns)
      decreases keyAttempts - |attempted|
    {
      if attempted != [] && next.None? {
        assert false;  // the key to try was chosen when the last attempt ended
      }
      var id := if attempted == [] then first else next.value;
      UntriedIsNew(turns(|attempted|).eligible, attempted, id);
      if id in attempted {
        assert false;  // the loop's break
      }
      assert attempted == [] ==> attempted + [id] == [first];
      if attempted != [] {
        ChosenNext(attempted, id, mode, turns);
      }
      ghost var was := store.record;
      var answer;
      answer, next, all429, guard := TryKey(evidence, attempted, id, all429, mode, keyAttempts, turns);
      FollowsIsTransitive(start, was, store.record);
      if answer.Some? {
        return answer.value, guard;
      }
      attempted := attempted + [id];
    }
    assert false;
  }

  lemma OneMoreIsSeparate(attempts: seq<AttemptRow>, keys: seq<KeyId>, key: KeyId, limit: nat)
    requires On(attempts, keys) || On(attempts, keys + [key])
    requires Distinct(keys) && key !in keys && |keys| < limit
    ensures Separate(attempts, limit) && Keys(attempts) in {keys, keys + [key]}
    ensures On(attempts, keys) ==> Keys(attempts) == keys
    ensures |attempts| - 1 <= |keys|
  {
    OnDistinctIsSeparate(attempts, if On(attempts, keys) then keys else keys + [key], limit);
    OnIsKeys(attempts, if On(attempts, keys) then keys else keys + [key]);
  }

  lemma AdmittedIsTrying(evidence: RequestEvidence, key: KeyId)
    requires evidence.Valid() && !evidence.terminal && InFlight(evidence.store.record)
    requires evidence.store.record.attempts == [AttemptRow(key, Some(evidence.store.owner), 1, STARTED, None, None)]
    ensures Trying(evidence, [key], true)
  {}

  // ---- An accepted job posted twice -------------------------------------------

  /** The provider accepts the job, polling succeeds, and the body breaks off. */
  const ACCEPTED_THEN_BROKEN := Turn(Replied(202, Some(200), false, false, BrokenBody), {}, [0, 1])

  lemma Singleton(keys: seq<KeyId>)
    ensures |keys| == 1 ==> keys == [keys[0]]
  {}

  lemma SecondKeyFollows(keys: seq<KeyId>, turns: nat -> Turn)
    requires 1 <= |keys| <= 2 && keys[0] == 0 && forall n :: turns(n) == ACCEPTED_THEN_BROKEN
    requires Chosen(keys, Media, turns) && !CouldGoOn(keys, Media, turns, 2)
    ensures keys == [0, 1]
  {
    assert keys[..1] == [0];
    Singleton(keys);
    assert FirstUntried([0, 1], [0]) == Some(1) by {
      assert [0, 1][1..] == [1];
    }
  }

  /** A request with two keys whose accepted job is posted to both, every await going well. */
  method PostAcceptedTwice() returns (store: Store)
    ensures fresh(store) && store.Valid() && Keys(store.record.attempts) == [0, 1]
  {
    hide Consistent, Lawful, Owned, OnKey, HoldsSuccess, Recorded, Judge, Settles, Chosen, CouldGoOn, InFlight,
         Trying;
    store := new Store(0, _ => SMOOTH);
    var admission, evidence := RequestEvidence.Admit(store, false, true, Some(0));
    AdmittedIsTrying(evidence, 0);
    ghost var before := store.record;
    var turns := (n: nat) => ACCEPTED_THEN_BROKEN;
    var response, guard := Forward(evidence, 0, Media, 2, turns);
    FirstKeyStays(before, store.record);
    SecondKeyFollows(Keys(store.record.attempts), turns);
  }

  lemma FirstKeyStays(a: Record, b: Record)
    requires Follows(a, b) && a.attempts != []
    ensures b.attempts != [] && b.attempts[0].key == a.attempts[0].key
  {
    assert FrozenAttempt(a.attempts[0], b.attempts[0]);
  }
}
