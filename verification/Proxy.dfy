/** A whole request: admission, the failover loop, the body, and every drop. */
module Proxy {
  import opened Common
  import opened Ledger
  import opened Evidence
  import opened Terminals
  import opened Failover
  import opened Replies
  import Streaming
  import SseFraming
  import Utf8

  /** What `prime_stream` read before the response was handed over. */
  datatype Primed = Primed(oracle: SseFraming.Oracle, upstream: seq<Streaming.Upstream>, position: nat,
                           validator: SseFraming.Sse, prefix: seq<Utf8.Bytes>)

  predicate WellPrimed(p: Primed) {
    && p.oracle.trim(SseFraming.DONE) == SseFraming.DONE && p.position <= |p.upstream|
    && Streaming.AllArrived(p.upstream[..p.position])
    && SseFraming.Represents(p.oracle, p.validator, Streaming.Sent(p.upstream[..p.position]), p.prefix)
  }

  /** What is true of the rows and of the permit once a request is over. */
  ghost predicate Over(store: Store, keyAttempts: nat)
    reads store
  {
    && store.Valid() && Separate(store.record.attempts, keyAttempts)
    && (store.holder == null || store.holder == store)
  }

  /** What a streamed body tells of the ledger once it is over: the bare terminator
      means both rows succeeded with every byte counted; after an error frame there is
      no success unless the answer to a commit was lost, and no cancellation. */
  ghost predicate StreamTells(store: Store, yielded: seq<Utf8.Bytes>, since: nat)
    reads store
  {
    yielded != [] ==>
      var last := yielded[|yielded| - 1];
      && (last == SseFraming.Emit(SseFraming.DONE) ==>
            Recorded(store.record, SUCCESS, Some(Streaming.Total(yielded)), SUCCESS))
      && (Streaming.IsError(last) && AllHeard(store, since) ==> !HoldsSuccess(store.record))
      && (Streaming.IsError(last) && Closed(store.record) ==> !store.record.request.value.end.outcome.Cancelled?)
  }

  ghost predicate AllHeard(store: Store, since: nat)
    reads store
  {
    forall t | since <= t < store.clock :: store.script(t) != UNHEARD
  }

  /** The body is served and dropped with all it owns. */
  method ServeBody(guard: Streaming.StreamAttemptGuard, key: KeyId, p: Primed, polls: nat, ghost keyAttempts: nat)
      returns (ghost yielded: seq<Utf8.Bytes>)
    requires Handed(guard, guard.request, key) && WellPrimed(p)
    requires !HoldsSuccess(guard.request.store.record) && InFlight(guard.request.store.record)
    requires Separate(guard.request.store.record.attempts, keyAttempts)
    modifies guard, guard.request, guard.request.store
    ensures Over(guard.request.store, keyAttempts)
    ensures Follows(old(guard.request.store.record), guard.request.store.record)
    ensures guard.request.store.clock > old(guard.request.store.clock)
    ensures guard.request.store.orphaned == old(guard.request.store.orphaned)
    ensures StreamTells(guard.request.store, yielded, old(guard.request.store.clock))
    ensures guard.request.store.Smooth(old(guard.request.store.clock)) ==>
              RecordsBytes(guard.request.store.record, Streaming.Total(yielded))
    ensures Closed(guard.request.store.record) || LastFailed(guard.request.store)
    ensures |guard.request.store.record.attempts| == |old(guard.request.store.record.attempts)|
  {
    hide SseFraming.Represents, Consistent, Lawful, Owned, Recorded, RecordsBytes, HoldsSuccess, SseFraming.Drain,
         Streaming.Total, Tells, EndsAs, SseFraming.Finished, Streaming.IsTerminal, Streaming.IsError, OnKey,
         Streaming.BodyStream.Booked, Streaming.BodyStream.Left;
    var store := guard.request.store;
    ghost var before, began := store.record, store.clock;
    FollowsItself(before);
    var body := new Streaming.BodyStream(guard, key, p.oracle, p.upstream, p.position, p.validator, p.prefix);
    ghost var _ := body.Serve(polls);
    yielded := body.yielded;
    if yielded != [] && Streaming.IsError(yielded[|yielded| - 1]) {
      body.ErrorIsNoCancellation(before, began);
    }
    SeparateStays(before, store.record, keyAttempts);
  }

  lemma SeparateStays(a: Record, b: Record, limit: nat)
    requires Follows(a, b) && |b.attempts| == |a.attempts| && Separate(a.attempts, limit)
    ensures Separate(b.attempts, limit)
  {
    assert forall i | 0 <= i < |a.attempts| :: FrozenAttempt(a.attempts[i], b.attempts[i]);
  }

  /** A settled answer stays what the ledger holds, whatever is dropped after it. */
  lemma SettledStays(response: Response, a: Record, b: Record)
    requires Follows(a, b) && Settles(response, a) && Closed(a) && Consistent(a)
    ensures Settles(response, b) && !response.Streaming?
  {
    forall i | 0 <= i < |a.attempts| ensures b.attempts[i].end == a.attempts[i].end {
      assert FrozenAttempt(a.attempts[i], b.attempts[i]);
    }
    match response
    case Ok(status, bytes) =>
      var end := Terminal(Succeeded, Some(status), None);
      RecordedStays(a, b, end, Some(bytes), end);
    case _ =>
  }

  lemma DefiniteIsClosed(response: Response, r: Record)
    requires Definite(response) && Settles(response, r)
    ensures Closed(r)
  {}

  /** The value is dropped at the end of the handler. */
  method Leave(evidence: RequestEvidence, ghost keyAttempts: nat, ghost response: Response)
    requires evidence.Valid() && Separate(evidence.store.record.attempts, keyAttempts)
    requires Settles(response, evidence.store.record)
    modifies evidence.store
    ensures Over(evidence.store, keyAttempts) && Follows(old(evidence.store.record), evidence.store.record)
    ensures Definite(response) ==> Settles(response, evidence.store.record)
    ensures evidence.store.orphaned == old(evidence.store.orphaned)
    ensures |evidence.store.record.attempts| == |old(evidence.store.record.attempts)|
    ensures evidence.terminal || evidence.store.script(old(evidence.store.clock)).fate.Commits? ==>
              Closed(evidence.store.record) && NoneOpen(evidence.store.record)
    ensures Closed(evidence.store.record) || LastFailed(evidence.store)
    ensures evidence.store.clock >= old(evidence.store.clock)
  {
    hide Consistent, Lawful, Owned, Settles, Recorded, Separate, NoneOpen;
    var store := evidence.store;
    ghost var before := store.record;
    LandingAddsNone(before, store.leased, FinishOpen(evidence.dropRecovery.end, evidence.dropRecovery.bytesOut),
                    store.owner, store.clock, store.script(store.clock));
    evidence.Drop();
    SeparateStays(before, store.record, keyAttempts);
    if Definite(response) {
      DefiniteIsClosed(response, before);
      SettledStays(response, before, store.record);
    }
  }

  /** The use of the credential could not be recorded: the request ends here. */
  method RefuseUnrecordedUse(evidence: RequestEvidence, status: nat)
    requires evidence.Valid() && !evidence.terminal && |evidence.store.record.attempts| <= 1
    modifies evidence, evidence.store
    ensures evidence.Valid() && Separate(evidence.store.record.attempts, 1)
    ensures evidence.store.orphaned == old(evidence.store.orphaned)
    ensures |evidence.store.record.attempts| == |old(evidence.store.record.attempts)|
    ensures Follows(old(evidence.store.record), evidence.store.record)
    ensures evidence.store.clock >= old(evidence.store.clock)
  {
    hide Consistent, Lawful, Land, Answer;
    var store := evidence.store;
    var end := Failure(Some(status), "downstream_credential_usage_record_failed");
    LandingAddsNone(store.record, store.leased, FinishOpen(end, 0), store.owner, store.clock,
                    store.script(store.clock));
    ConcludingCloses(store.record, store.leased, FinishOpen(end, 0), store.owner, store.clock,
                     store.script(store.clock));
    var _ := evidence.FinishWithOpenAttempts(end, 0);
  }

  lemma HandedIsOfEvidence(guard: Streaming.StreamAttemptGuard?, evidence: RequestEvidence, key: KeyId)
    requires Handed(guard, evidence, key)
    ensures guard != null && guard.request == evidence
  {}

  lemma FirstKeyIsGiven(attempts: seq<AttemptRow>, mode: Mode, turns: nat -> Turn)
    requires |attempts| <= 1
    ensures Chosen(Keys(attempts), mode, turns) && EndedAsReplied(attempts, |attempts| - 1, mode, turns)
  {}

  /** The attempts are made, and their answer is given. */
  method Relay(evidence: RequestEvidence, key: KeyId, mode: Mode, keyAttempts: nat, turns: nat -> Turn,
               primed: Primed, polls: nat) returns (response: Response, ghost yielded: seq<Utf8.Bytes>)
    requires Trying(evidence, [key], true) && keyAttempts >= 1 && WellPrimed(primed)
    modifies evidence, evidence.store
    ensures Over(evidence.store, keyAttempts) && evidence.store.orphaned == old(evidence.store.orphaned)
    ensures Closed(evidence.store.record) || LastFailed(evidence.store)
    ensures evidence.store.clock > old(evidence.store.clock)
    ensures Chosen(Keys(evidence.store.record.attempts), mode, turns)
    ensures EndedAsReplied(evidence.store.record.attempts, |evidence.store.record.attempts| - 1, mode, turns)
    ensures InFlight(old(evidence.store.record)) && evidence.store.Smooth(old(evidence.store.clock)) ==>
              && !CouldGoOn(Keys(evidence.store.record.attempts), mode, turns, keyAttempts)
              && (keyAttempts <= MAX_ATTEMPTS ==> Told(response, evidence.store.record.attempts, mode, turns))
    ensures Definite(response) ==> Settles(response, evidence.store.record)
    ensures response.NoEligible? ==>
              Closed(evidence.store.record) && evidence.store.record.request.value.end == NONE_ELIGIBLE
    ensures response.Streaming? ==> StreamTells(evidence.store, yielded, old(evidence.store.clock))
    ensures response.Streaming? && evidence.store.Smooth(old(evidence.store.clock)) ==>
              RecordsBytes(evidence.store.record, Streaming.Total(yielded))
  {
    hide Consistent, Lawful, Owned, Settles, Recorded, RecordsBytes, Land, Answer, Follows, OnKey, HoldsSuccess,
         WellPrimed, Handed, InFlight, Chosen, Streaming.IsError, CouldGoOn, EndedAsReplied, Told, Trying;
    yielded := [];
    var store := evidence.store;
    var guard;
    response, guard := Forward(evidence, key, mode, keyAttempts, turns);
    ghost var answered := store.record;
    if response.Streaming? {
      StreamingSettles(response, store.record);
      HandedIsOfEvidence(guard, evidence, response.key);
      yielded := ServeBody(guard, response.key, primed, polls, keyAttempts);
    } else {
      Leave(evidence, keyAttempts, response);
      NoEligibleRow(response, store.record);
    }
    AttemptsStillTell(answered, store.record, response, mode, turns);
  }

  /** The request is admitted: the use of the credential is recorded, and the attempts
      are made. */
  method Proceed(evidence: RequestEvidence, key: KeyId, mode: Mode, keyAttempts: nat, turns: nat -> Turn,
                 primed: Primed, polls: nat) returns (response: Response, ghost yielded: seq<Utf8.Bytes>)
    requires Trying(evidence, [key], true) && keyAttempts >= 1 && WellPrimed(primed)
    modifies evidence, evidence.store
    ensures Over(evidence.store, keyAttempts) && evidence.store.orphaned == old(evidence.store.orphaned)
    ensures Closed(evidence.store.record) || LastFailed(evidence.store)
    ensures evidence.store.clock > old(evidence.store.clock)
    ensures Chosen(Keys(evidence.store.record.attempts), mode, turns)
    ensures EndedAsReplied(evidence.store.record.attempts, |evidence.store.record.attempts| - 1, mode, turns)
    ensures InFlight(old(evidence.store.record)) && evidence.store.Smooth(old(evidence.store.clock)) ==>
              && !CouldGoOn(Keys(evidence.store.record.attempts), mode, turns, keyAttempts)
              && (keyAttempts <= MAX_ATTEMPTS ==> Told(response, evidence.store.record.attempts, mode, turns))
    ensures Definite(response) ==> Settles(response, evidence.store.record)
    ensures response.NoEligible? ==>
              Closed(evidence.store.record) && evidence.store.record.request.value.end == NONE_ELIGIBLE
    ensures response.Streaming? ==> StreamTells(evidence.store, yielded, old(evidence.store.clock))
    ensures response.Streaming? && evidence.store.Smooth(old(evidence.store.clock)) ==>
              RecordsBytes(evidence.store.record, Streaming.Total(yielded))
  {
    hide Consistent, Lawful, Owned, Settles, Recorded, RecordsBytes, Land, Answer, Follows, OnKey, HoldsSuccess,
         WellPrimed, InFlight, Chosen, Streaming.IsError, CouldGoOn, EndedAsReplied, Told, Over;
    yielded := [];
    var store := evidence.store;
    var reply := AwaitElsewhere(evidence, [key], true);
    OnHasLength(store.record.attempts, [key]);
    UndecidedSettles();
    FirstKeyIsGiven(store.record.attempts, mode, turns);
    if reply.Done? {
      response, yielded := Relay(evidence, key, mode, keyAttempts, turns, primed, polls);
      return;
    }
    ghost var untouched := store.record;
    FollowsItself(untouched);
    response := if reply.Refused? then RecordUnavailable else Gone;
    if reply.Refused? {
      RefuseUnrecordedUse(evidence, 503);
    }
    ghost var before := store.record;
    Leave(evidence, keyAttempts, response);
    FollowsIsTransitive(untouched, before, store.record);
    AttemptsStillTell(untouched, store.record, response, mode, turns);
  }

  /** A request from admission to its last drop. Afterwards nobody but a release
      retry is responsible for the permit; the attempts were on distinct keys; a definite
      answer is what the ledger holds; a streamed body told the client what became of it;
      the request is closed or was never started unless its last transaction failed; and
      with all awaits going well the client gets a definite answer or a stream. */
  method Handle(store: Store, credential: bool, admitted: bool, selected: Option<KeyId>, mode: Mode, single: bool,
                listed: nat, turns: nat -> Turn, primed: Primed, polls: nat)
      returns (response: Response, ghost yielded: seq<Utf8.Bytes>)
    requires store.Valid() && store.record == EMPTY && store.holder == null && !store.orphaned
    requires WellPrimed(primed)
    modifies store
    ensures Over(store, KeyAttempts(single, listed))
    ensures Definite(response) && store.record.attempts != [] ==> Settles(response, store.record)
    ensures response.NoEligible? ==> Closed(store.record) && store.record.request.value.end == NONE_ELIGIBLE
    ensures response.Streaming? ==> StreamTells(store, yielded, old(store.clock))
    ensures response.Streaming? && store.Smooth(old(store.clock)) ==>
              RecordsBytes(store.record, Streaming.Total(yielded))
    ensures store.orphaned <==>
              credential && admitted && old(store.leased) && Unlearned(store.script(old(store.clock)))
    ensures store.orphaned ==> Held(store.record) && response in {Gone, RecordUnavailable}
    ensures InFlight(store.record) ==> LastFailed(store)
    // each key but the first follows a reply that allows another; each attempt ended as its reply says
    ensures Chosen(Keys(store.record.attempts), mode, turns)
    ensures EndedAsReplied(store.record.attempts, |store.record.attempts| - 1, mode, turns)
    // with all awaits going well: every listed key is tried if need be, and the last reply gets its answer
    ensures old(store.leased) && (credential ==> admitted) && store.Smooth(old(store.clock)) ==>
              var allowed := if single then 1 else Max(listed, 1);
              if selected.None? then response.NoEligible?
              else
                && !CouldGoOn(Keys(store.record.attempts), mode, turns, allowed)
                && (allowed <= MAX_ATTEMPTS ==> Told(response, store.record.attempts, mode, turns))
  {
    hide Consistent, Lawful, Owned, Settles, Recorded, RecordsBytes, Land, Answer, Follows, OnKey, HoldsSuccess,
         WellPrimed, Chosen, CouldGoOn, EndedAsReplied, Told;
    yielded := [];
    var admission, evidence := RequestEvidence.Admit(store, credential, admitted, selected);
    FirstKeyIsGiven(store.record.attempts, mode, turns);
    match admission {
      case Admitted(key) =>
        AdmittedIsTrying(evidence, key);
        response, yielded := Proceed(evidence, key, mode, KeyAttempts(single, listed), turns, primed, polls);
      case NoUpstream => response := NoEligible;
      case Abandoned => response := Gone;
      case _ => response := RecordUnavailable;
    }
  }

  lemma UndecidedSettles()
    ensures forall r :: Settles(RecordUnavailable, r) && Settles(Gone, r)
  {}

  lemma NoEligibleRow(response: Response, r: Record)
    requires Settles(response, r) || !Definite(response)
    ensures response.NoEligible? ==> Closed(r) && r.request.value.end == NONE_ELIGIBLE
  {}

  lemma StreamingSettles(response: Response, r: Record)
    requires response.Streaming? && Settles(response, r)
    ensures InFlight(r) && OnKey(r, response.key) && !HoldsSuccess(r)
  {}

  /** After the next restart cleanup that finds this process gone, nothing of the
      request is open and no permit is held, whatever happened before. */
  lemma CleanupEndsEverything(r: Record, leased: bool, owner: OwnerId, now: Time)
    requires Consistent(r) && Owned(r, leased, owner)
    ensures var c := Cleaned(r, {owner}, now);
            NoneOpen(c) && !InFlight(c) && !Held(c) && Consistent(c)
  {
    CleanupKeepsConsistency(r, {owner}, now);
    CleanupClosesExpired(r, {owner}, now);
  }
}
