/** What a terminal transaction leaves in the rows of a request whose last attempt
    is under way. */
module Terminals {
  import opened Common
  import opened Ledger
  import opened Evidence

  const SUCCESS := Terminal(Succeeded, Some(200), None)

  predicate HoldsSuccess(r: Record) {
    r.request.Some? && r.request.value.end.outcome.Succeeded?
  }

  /** While the request is in flight its last attempt is open and is this key's. */
  predicate OnKey(r: Record, key: KeyId) {
    InFlight(r) ==>
      r.attempts != [] && Open(r.attempts[|r.attempts| - 1]) && r.attempts[|r.attempts| - 1].key == key
  }

  /** Both rows are closed as told, and the attempt with this many bytes. */
  predicate Recorded(r: Record, attempt: Terminal, bytesOut: Option<nat>, request: Terminal) {
    && Closed(r) && r.request.value.end == request && r.attempts != []
    && var last := r.attempts[|r.attempts| - 1];
       !Open(last) && last.end == attempt && last.bytesOut == bytesOut
  }

  predicate RecordsBytes(r: Record, bytes: nat) {
    Closed(r) && r.attempts != []
    && !Open(r.attempts[|r.attempts| - 1]) && r.attempts[|r.attempts| - 1].bytesOut == Some(bytes)
  }

  predicate CleanedUp(r: Record) {
    Closed(r) && r.request.value.end.outcome.AbandonedAfterRestart?
  }

  /** What may have become of rows that were in flight: still so, abandoned by a
      restart cleanup, or closed as told. */
  predicate EndsAs(before: Record, r: Record, attempt: Terminal, bytesOut: Option<nat>, request: Terminal) {
    InFlight(before) ==> InFlight(r) || CleanedUp(r) || Recorded(r, attempt, bytesOut, request)
  }

  /** The same of the bytes alone, where a success may have been committed. */
  predicate Tells(before: Record, r: Record, bytes: nat) {
    InFlight(before) ==> InFlight(r) || CleanedUp(r) || HoldsSuccess(r) || RecordsBytes(r, bytes)
  }

  /** A closed row stays what it is. */
  lemma ClosedStays(a: Record, b: Record)
    requires Follows(a, b) && Closed(a)
    ensures Closed(b) && (CleanedUp(b) <==> CleanedUp(a)) && (HoldsSuccess(b) <==> HoldsSuccess(a))
    ensures forall bytes :: RecordsBytes(a, bytes) ==> RecordsBytes(b, bytes)
    ensures forall attempt, bytes, row :: Recorded(a, attempt, bytes, row) ==> Recorded(b, attempt, bytes, row)
  {
    if a.attempts != [] {
      assert FrozenAttempt(a.attempts[|a.attempts| - 1], b.attempts[|a.attempts| - 1]);
    }
  }

  /** One end after another, the second on rows the first left open. */
  lemma EndsTwice(r: Record, between: Record, after: Record, attempt: Terminal, bytesOut: Option<nat>, row: Terminal,
                  recovery: Terminal, recoveryBytes: nat)
    requires Follows(between, after)
    requires EndsAs(r, between, attempt, bytesOut, row)
    requires EndsAs(between, after, recovery, Some(recoveryBytes), recovery)
    ensures EndsAs(r, after, attempt, bytesOut, row) || EndsAs(r, after, recovery, Some(recoveryBytes), recovery)
  {
    if Closed(between) {
      ClosedStays(between, after);
    }
  }

  lemma EndedItself(r: Record, attempt: Terminal, bytesOut: Option<nat>, row: Terminal)
    ensures EndsAs(r, r, attempt, bytesOut, row)
  {}

  lemma EndedTells(before: Record, r: Record, attempt: Terminal, bytes: nat, request: Terminal)
    ensures EndsAs(before, r, attempt, Some(bytes), request) ==> Tells(before, r, bytes)
  {}

  lemma RecordedStays(a: Record, b: Record, attempt: Terminal, bytesOut: Option<nat>, request: Terminal)
    requires Follows(a, b) && Recorded(a, attempt, bytesOut, request)
    ensures Recorded(b, attempt, bytesOut, request)
  {
    assert FrozenAttempt(a.attempts[|a.attempts| - 1], b.attempts[|a.attempts| - 1]);
  }

  /** A cleanup keeps the outcome that was there. */
  lemma FoundKeepsOutcome(r: Record, leased: bool, tx: Transaction, owner: OwnerId, now: Time, at: Moment, key: KeyId)
    requires Consistent(r) && Owned(r, leased, owner) && OnKey(r, key) && Disciplined(r, tx, owner)
             && !tx.RestartCleanup?
    ensures var found := Found(r, owner, now, at);
            && Consistent(found) && Owned(found, leased && !at.takenOver, owner) && OnKey(found, key)
            && (HoldsSuccess(found) <==> HoldsSuccess(r)) && (InFlight(found) <==> InFlight(r) && !at.takenOver)
            && |found.attempts| == |r.attempts| && (!at.takenOver ==> found == r)
            && (InFlight(r) && at.takenOver ==> CleanedUp(found))
  {
    FoundIsSound(r, leased, tx, owner, now, at);
    hide Consistent, Owned, Disciplined;
  }

  /** The pair of rows a terminal transaction leaves when it takes effect. */
  lemma FinishBothRecords(r: Record, key: KeyId, attempt: Terminal, bytesOut: Option<nat>, request: Terminal,
                          leased: bool, owner: OwnerId, now: Time, at: Moment)
    requires Consistent(r) && OnKey(r, key) && Owned(r, leased, owner)
    requires !attempt.outcome.Started? && !request.outcome.Started?
    ensures var tx := FinishBoth(key, attempt, bytesOut, request);
            var landed := Land(r, leased, tx, owner, now, at);
            && (Would(r, leased, tx, owner, now, at).Some? <==> InFlight(r) && !at.takenOver)
            && (Answer(r, leased, tx, owner, now, at).Done? <==> InFlight(r) && at == SMOOTH)
            && (Answer(r, leased, tx, owner, now, at).Done? ==> Recorded(landed, attempt, bytesOut, request))
            && EndsAs(r, landed, attempt, bytesOut, request)
            && OnKey(landed, key) && |landed.attempts| == |r.attempts|
            && (HoldsSuccess(landed) <==>
                  HoldsSuccess(r)
                  || (InFlight(r) && !at.takenOver && request.outcome.Succeeded? && TakesEffect(at.fate)))
  {
    var tx := FinishBoth(key, attempt, bytesOut, request);
    FoundKeepsOutcome(r, leased, tx, owner, now, at, key);
    hide Cleaned;
    var found := Found(r, owner, now, at);
    if InFlight(found) {
      var n := |found.attempts| - 1;
      assert NewestOpen(found.attempts, key, owner) == Some(n);
    } else {
      assert CloseRequest(found, request, now).None?;
    }
    hide Consistent, OnKey;
  }

  lemma FinishOpenRecords(r: Record, key: KeyId, end: Terminal, bytes: nat,
                          leased: bool, owner: OwnerId, now: Time, at: Moment)
    requires Consistent(r) && OnKey(r, key) && Owned(r, leased, owner) && !end.outcome.Started?
    requires !end.outcome.Succeeded?
    ensures var tx := FinishOpen(end, bytes);
            var landed := Land(r, leased, tx, owner, now, at);
            && (Answer(r, leased, tx, owner, now, at).Done? <==> InFlight(r) && at == SMOOTH)
            && (Answer(r, leased, tx, owner, now, at).Done? ==> Recorded(landed, end, Some(bytes), end))
            && EndsAs(r, landed, end, Some(bytes), end)
            && OnKey(landed, key) && |landed.attempts| == |r.attempts|
            && (HoldsSuccess(landed) <==> HoldsSuccess(r))
  {
    FoundKeepsOutcome(r, leased, FinishOpen(end, bytes), owner, now, at, key);
    hide Cleaned;
    var found := Found(r, owner, now, at);
    if InFlight(found) {
      var n := |found.attempts| - 1;
      var closed := CloseOpen(found.attempts, owner, end, bytes, now);
      assert closed[n] == CloseAttempt(found.attempts[n], end, Some(bytes), now);
    }
  }

  lemma RecordedIsClosed(r: Record, attempt: Terminal, bytesOut: Option<nat>, row: Terminal)
    ensures Recorded(r, attempt, bytesOut, row) ==> Closed(r) && (bytesOut.Some? ==> RecordsBytes(r, bytesOut.value))
    ensures Recorded(r, attempt, bytesOut, row) && row.outcome.Failed? ==> !HoldsSuccess(r)
  {}

  lemma AnswersDone(r: Record, leased: bool, tx: Transaction, owner: OwnerId, now: Time, at: Moment)
    ensures Answer(r, leased, tx, owner, now, at).Done? <==>
              at.fate.Commits? && Would(r, leased, tx, owner, now, at).Some?
    ensures Answer(r, leased, tx, owner, now, at).Dropped? <==> Drops(at.fate)
  {}

  lemma ElsewhereKeeps(r: Record, leased: bool, owner: OwnerId, now: Time, at: Moment, key: KeyId)
    requires Consistent(r) && OnKey(r, key) && Owned(r, leased, owner)
    ensures var landed := Land(r, leased, OtherTables, owner, now, at);
            && OnKey(landed, key) && (HoldsSuccess(landed) <==> HoldsSuccess(r))
            && (InFlight(landed) <==> InFlight(r) && !at.takenOver)
            && (!at.takenOver ==> landed == r) && (InFlight(r) && at.takenOver ==> CleanedUp(landed))
            && (Answer(r, leased, OtherTables, owner, now, at).Done? <==> at.fate.Commits?)
  {
    if at.takenOver {
      FoundIsSound(r, leased, ReleasePermit, owner, now, at);
    }
  }

  /** Where a terminal transaction leaves the rows it landed on. */
  lemma SettlesAsLanded(landed: Record, r: Record, key: KeyId)
    requires Follows(landed, r) && OnKey(landed, key)
    requires Closed(landed) || r == landed
    ensures OnKey(r, key) && (HoldsSuccess(r) <==> HoldsSuccess(landed))
    ensures |r.attempts| == |landed.attempts|
  {}

  lemma EndedStays(before: Record, landed: Record, r: Record, attempt: Terminal, bytesOut: Option<nat>, row: Terminal)
    requires Follows(landed, r) && (Closed(landed) || r == landed)
    requires EndsAs(before, landed, attempt, bytesOut, row)
    ensures EndsAs(before, r, attempt, bytesOut, row)
  {
    if Closed(landed) {
      ClosedStays(landed, r);
    }
  }

  /** The transactions between the start of an attempt and its end add no attempt. */
  lemma LandingAddsNone(r: Record, leased: bool, tx: Transaction, owner: OwnerId, now: Time, at: Moment)
    requires tx.FinishAttempt? || tx.FinishBoth? || tx.FinishOpen? || tx.ResponseStarted? || tx.OtherTables?
    ensures |Land(r, leased, tx, owner, now, at).attempts| == |r.attempts|
  {}
}
