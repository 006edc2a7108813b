/** The streaming body: frames are passed on one by one, and the terminal frame
    agrees with what the ledger holds. */
module Streaming {
  import opened Common
  import opened Ledger
  import opened Evidence
  import opened Terminals
  import opened SseFraming
  import opened Utf8

  datatype StreamTerminal = RequestedTerminalCommitted | RecoveredAsEvidenceFailure | PendingDropRetry | StreamDropped

  /** A terminal transaction is not answered by a refusal, after which a recovery would
      be tried: it is abandoned, or commits and is heard of. */
  predicate NotRefused(before: Record, at: Moment) {
    Drops(at.fate) || (InFlight(before) && at == SMOOTH)
  }

  /** Owns the request evidence while the body streams. */
  class StreamAttemptGuard {
    const request: RequestEvidence
    ghost const streamed: KeyId
    ghost const attempts: nat
    var terminal: bool
    var bytesOut: nat
    var dropEnd: Terminal

    ghost predicate Valid()
      reads this, request, request.store
    {
      && request.Valid() && OnKey(request.store.record, streamed) && |request.store.record.attempts| == attempts
      && !dropEnd.outcome.Started? && !dropEnd.outcome.Succeeded?
      && (terminal ==> Closed(request.store.record))
    }

    constructor (request: RequestEvidence, ghost key: KeyId)
      requires request.Valid() && OnKey(request.store.record, key)
      ensures Valid() && this.request == request && streamed == key && !terminal && bytesOut == 0
      ensures attempts == |request.store.record.attempts|
    {
      this.request, streamed, attempts := request, key, |request.store.record.attempts|;
      terminal, bytesOut, dropEnd := false, 0, ABANDONED.end;
    }

    method ArmEvidenceFailure(bytes: nat)
      requires Valid()
      modifies this`bytesOut, this`dropEnd
      ensures Valid() && bytesOut == bytes && dropEnd == EvidenceFailure(bytes).end
    {
      bytesOut, dropEnd := bytes, EvidenceFailure(bytes).end;
    }

    /** From here on a drop is the client's doing. */
    method MarkResponseCommitted(status: nat)
      requires Valid()
      modifies this`dropEnd
      ensures Valid() && dropEnd == Terminal(Cancelled, Some(status), Some(DownstreamCancelled))
    {
      dropEnd := Terminal(Cancelled, Some(status), Some(DownstreamCancelled));
    }

    method RecordBytesOut(bytes: nat)
      requires Valid()
      modifies this`bytesOut
      ensures Valid() && bytesOut == SaturatingAdd(old(bytesOut), bytes)
    {
      bytesOut := SaturatingAdd(bytesOut, bytes);
    }

    method MarkTerminal()
      requires Valid() && Closed(request.store.record)
      modifies this`terminal
      ensures Valid() && terminal
    {
      terminal := true;
    }

    /** Both rows in one transaction. */
    method FinishTyped(key: KeyId, attempt: Terminal, bytes: nat, row: Terminal) returns (reply: Reply)
      requires Valid() && key == streamed && !attempt.outcome.Started? && !row.outcome.Started?
      modifies request`terminal, request`permitAcquired, request`dropRecovery
      modifies request.store`clock, request.store`record, request.store`leased, request.store`steps
      modifies request.store`retrying, request.store`holder
      ensures Valid() && Follows(old(request.store.record), request.store.record)
      ensures reply.Done? ==> Recorded(request.store.record, attempt, Some(bytes), row)
      ensures !reply.Dropped? ==>
                (reply.Done? <==>
                   InFlight(old(request.store.record)) && request.store.script(old(request.store.clock)) == SMOOTH)
      ensures reply.Refused? <==> !NotRefused(old(request.store.record), request.store.script(old(request.store.clock)))
      ensures reply.Dropped? ==> !request.store.Undropped(old(request.store.clock))
      ensures request.store.clock > old(request.store.clock)
      ensures EndsAs(old(request.store.record), request.store.record, attempt, Some(bytes), row)
      ensures reply.Refused? ==>
                (HoldsSuccess(request.store.record) <==>
                   HoldsSuccess(old(request.store.record))
                   || (InFlight(old(request.store.record)) && row.outcome.Succeeded?
                       && request.store.script(old(request.store.clock)) == UNHEARD))
    {
      hide Consistent, Lawful, Owned, Land, Answer, Recorded, OnKey, EndsAs;
      var store := request.store;
      ghost var before := store.record;
      ghost var tx := FinishBoth(key, attempt, Some(bytes), row);
      ghost var landed := request.Landed(store.record, store.leased, tx, store.clock);
      FinishBothRecords(store.record, key, attempt, Some(bytes), row, store.leased, store.owner, store.clock,
                        store.script(store.clock));
      RecordedIsClosed(landed, attempt, Some(bytes), row);
      AnswersDone(store.record, store.leased, tx, store.owner, store.clock, store.script(store.clock));
      reply := request.FinishWithAttempt(key, attempt, Some(bytes), row, true);
      SettlesAsLanded(landed, store.record, key);
      EndedStays(before, landed, store.record, attempt, Some(bytes), row);
      if reply.Done? {
        RecordedStays(landed, store.record, attempt, Some(bytes), row);
      }
    }

    /** Closes whatever is open with the armed drop values. */
    method FinishArmed() returns (reply: Reply)
      requires Valid()
      modifies request`terminal, request`permitAcquired, request`dropRecovery
      modifies request.store`clock, request.store`record, request.store`leased, request.store`steps
      modifies request.store`retrying, request.store`holder
      ensures Valid() && Follows(old(request.store.record), request.store.record)
      ensures HoldsSuccess(request.store.record) <==> HoldsSuccess(old(request.store.record))
      ensures reply.Done?
              || (InFlight(old(request.store.record)) && request.store.script(old(request.store.clock)) == SMOOTH) ==>
                Recorded(request.store.record, dropEnd, Some(bytesOut), dropEnd)
      ensures reply.Dropped? ==> !request.store.Undropped(old(request.store.clock))
      ensures request.store.clock > old(request.store.clock)
      ensures EndsAs(old(request.store.record), request.store.record, dropEnd, Some(bytesOut), dropEnd)
      ensures request.dropRecovery == DropRecovery(dropEnd, bytesOut)
    {
      hide Consistent, Lawful, Owned, Land, Answer, Recorded, OnKey, EndsAs;
      var store := request.store;
      ghost var before := store.record;
      ghost var tx := FinishOpen(dropEnd, bytesOut);
      ghost var landed := request.Landed(store.record, store.leased, tx, store.clock);
      ghost var done := request.Answered(store.record, store.leased, tx, store.clock).Done?;
      FinishOpenRecords(store.record, streamed, dropEnd, bytesOut, store.leased, store.owner, store.clock,
                        store.script(store.clock));
      RecordedIsClosed(landed, dropEnd, Some(bytesOut), dropEnd);
      reply := request.FinishWithOpenAttempts(dropEnd, bytesOut);
      SettlesAsLanded(landed, store.record, streamed);
      EndedStays(before, landed, store.record, dropEnd, Some(bytesOut), dropEnd);
      if done {
        RecordedStays(landed, store.record, dropEnd, Some(bytesOut), dropEnd);
      }
    }

    /** The typed terminal, or else one awaited recovery, or else the armed drop. The
        ledger then holds the terminal or the recovery; it holds a success that was
        answered as a failure exactly when the answer to its commit was lost. */
    method FinishRequestAndAttempt(key: KeyId, attempt: Terminal, bytes: nat, row: Terminal, recoveryBytes: nat)
        returns (result: StreamTerminal)
      requires Valid() && key == streamed && !attempt.outcome.Started? && !row.outcome.Started?
      modifies this`bytesOut, this`dropEnd
      modifies request`terminal, request`permitAcquired, request`dropRecovery
      modifies request.store`clock, request.store`record, request.store`leased, request.store`steps
      modifies request.store`retrying, request.store`holder
      ensures Valid() && Follows(old(request.store.record), request.store.record)
      ensures result.RequestedTerminalCommitted? ==>
                Recorded(request.store.record, attempt, Some(bytes), row) && bytesOut == old(bytesOut)
      ensures !result.StreamDropped? ==>
                (result.RequestedTerminalCommitted? <==>
                   InFlight(old(request.store.record)) && request.store.script(old(request.store.clock)) == SMOOTH)
      ensures result.StreamDropped? ==>
                && !request.store.Undropped(old(request.store.clock))
                && bytesOut == if NotRefused(old(request.store.record), request.store.script(old(request.store.clock)))
                               then old(bytesOut) else recoveryBytes
      ensures NotRefused(old(request.store.record), request.store.script(old(request.store.clock))) ==>
                EndsAs(old(request.store.record), request.store.record, attempt, Some(bytes), row)
      ensures var recovery := Terminal(Failed, row.status, Some(EvidenceUnavailable));
              || EndsAs(old(request.store.record), request.store.record, attempt, Some(bytes), row)
              || EndsAs(old(request.store.record), request.store.record, recovery, Some(recoveryBytes), recovery)
      ensures request.store.clock > old(request.store.clock)
      ensures result.RecoveredAsEvidenceFailure? ==>
                Recorded(request.store.record, dropEnd, Some(recoveryBytes), dropEnd)
      ensures result.RecoveredAsEvidenceFailure? || result.PendingDropRetry? ==>
                && bytesOut == recoveryBytes && dropEnd == Terminal(Failed, row.status, Some(EvidenceUnavailable))
                && (HoldsSuccess(request.store.record) <==>
                      HoldsSuccess(old(request.store.record))
                      || (InFlight(old(request.store.record)) && row.outcome.Succeeded?
                          && request.store.script(old(request.store.clock)) == UNHEARD))
    {
      hide Consistent, Lawful, Owned, Land, Answer, Recorded, OnKey, EndsAs;
      ghost var before := request.store.record;
      var reply := FinishTyped(key, attempt, bytes, row);
      match reply {
        case Done => return RequestedTerminalCommitted;
        case Dropped => return StreamDropped;
        case Refused =>
      }
      dropEnd := Terminal(Failed, row.status, Some(EvidenceUnavailable));
      bytesOut := recoveryBytes;
      ghost var between := request.store.record;
      reply := FinishArmed();
      FollowsIsTransitive(before, between, request.store.record);
      EndsTwice(before, between, request.store.record, attempt, Some(bytes), row, dropEnd, recoveryBytes);
      result := match reply
        case Done => RecoveredAsEvidenceFailure
        case Dropped => StreamDropped
        case Refused => PendingDropRetry;
    }

    method AwaitHealth() returns (reply: Reply)
      requires Valid()
      modifies request.store`clock, request.store`record, request.store`leased, request.store`steps
      ensures Valid() && Follows(old(request.store.record), request.store.record)
      ensures HoldsSuccess(request.store.record) <==> HoldsSuccess(old(request.store.record))
      ensures !request.store.script(old(request.store.clock)).takenOver ==>
                request.store.record == old(request.store.record)
      ensures InFlight(request.store.record) <==>
                InFlight(old(request.store.record)) && !request.store.script(old(request.store.clock)).takenOver
      ensures InFlight(old(request.store.record)) ==> InFlight(request.store.record) || CleanedUp(request.store.record)
      ensures reply.Done? <==> request.store.script(old(request.store.clock)).fate.Commits?
      ensures reply.Dropped? <==> Drops(request.store.script(old(request.store.clock)).fate)
      ensures request.store.clock == old(request.store.clock) + 1
    {
      hide Consistent, Lawful, OnKey, HoldsSuccess;
      var store := request.store;
      ElsewhereKeeps(store.record, store.leased, store.owner, store.clock, store.script(store.clock), streamed);
      LandingAddsNone(store.record, store.leased, OtherTables, store.owner, store.clock, store.script(store.clock));
      AnswersDone(store.record, store.leased, OtherTables, store.owner, store.clock, store.script(store.clock));
      reply := request.Await(OtherTables);
    }

    /** `release_request`: the failover loop takes the evidence back. */
    method ReleaseRequest() returns (evidence: RequestEvidence)
      requires Valid()
      modifies this`terminal
      ensures evidence == request && terminal
    {
      terminal := true;
      evidence := request;
    }

    /** The first half of a drop: what is still open closes with the armed values. */
    method CloseArmed()
      requires Valid()
      modifies request`terminal, request`permitAcquired, request`dropRecovery
      modifies request.store`clock, request.store`record, request.store`leased, request.store`steps
      modifies request.store`retrying, request.store`holder
      ensures Valid() && Follows(old(request.store.record), request.store.record)
      ensures HoldsSuccess(request.store.record) <==> HoldsSuccess(old(request.store.record))
      ensures terminal ==> request.store.record == old(request.store.record)
      ensures !terminal && InFlight(old(request.store.record))
              && request.store.script(old(request.store.clock)) == SMOOTH ==>
                Recorded(request.store.record, dropEnd, Some(bytesOut), dropEnd)
      ensures request.store.clock >= old(request.store.clock) + if terminal then 0 else 1
      ensures !terminal ==>
                && EndsAs(old(request.store.record), request.store.record, dropEnd, Some(bytesOut), dropEnd)
                && request.dropRecovery == DropRecovery(dropEnd, bytesOut)
    {
      hide Consistent, Lawful, Owned, Recorded, OnKey, EndsAs;
      FollowsItself(request.store.record);
      if !terminal {
        var _ := FinishArmed();
      }
    }

    /** Dropping the guard closes what is still open with the armed values; it never
        turns a failure into a success or back. */
    method Drop()
      requires Valid()
      modifies request`terminal, request`permitAcquired, request`dropRecovery
      modifies request.store`clock, request.store`record, request.store`leased, request.store`steps
      modifies request.store`retrying, request.store`holder
      ensures request.store.Valid() && Follows(old(request.store.record), request.store.record)
      ensures HoldsSuccess(request.store.record) <==> HoldsSuccess(old(request.store.record))
      ensures !terminal && InFlight(old(request.store.record))
              && request.store.script(old(request.store.clock)) == SMOOTH ==>
                Recorded(request.store.record, dropEnd, Some(bytesOut), dropEnd)
      ensures request.store.holder == null || request.store.holder == request.store
      ensures |request.store.record.attempts| == attempts
      ensures request.store.clock >= old(request.store.clock) + if terminal then 0 else 1
      ensures !terminal ==> EndsAs(old(request.store.record), request.store.record, dropEnd, Some(bytesOut), dropEnd)
      ensures Closed(request.store.record) || LastFailed(request.store)
    {
      hide Consistent, Lawful, Owned, Land, Answer, Recorded, OnKey, EndsAs;
      ghost var before := request.store.record;
      CloseArmed();
      ghost var store := request.store;
      ghost var between := store.record;
      FinishOpenRecords(between, streamed, request.dropRecovery.end, request.dropRecovery.bytesOut,
                        store.leased, store.owner, store.clock, store.script(store.clock));
      request.Drop();
      FollowsIsTransitive(before, between, request.store.record);
      if !terminal {
        EndedItself(between, dropEnd, Some(bytesOut), dropEnd);
        EndsTwice(before, between, store.record, dropEnd, Some(bytesOut), dropEnd, dropEnd, bytesOut);
      }
      if Recorded(between, dropEnd, Some(bytesOut), dropEnd) {
        RecordedStays(between, store.record, dropEnd, Some(bytesOut), dropEnd);
      }
    }
  }

  // ---- The body stream ------------------------------------------------------------

  datatype Upstream = Arrived(bytes: Bytes) | Broken | Ended | TimedOut | ClientGone

  predicate AllArrived(events: seq<Upstream>) {
    forall e | e in events :: e.Arrived?
  }

  /** The bytes of all the chunks, in their order. */
  function Sent(events: seq<Upstream>): Bytes
    requires AllArrived(events)
  {
    if events == [] then [] else Sent(events[..|events| - 1]) + events[|events| - 1].bytes
  }

  lemma SentOneMore(events: seq<Upstream>, n: nat)
    requires n < |events| && AllArrived(events[..n]) && events[n].Arrived?
    ensures AllArrived(events[..n + 1]) && Sent(events[..n + 1]) == Sent(events[..n]) + events[n].bytes
  {
    assert events[..n + 1] == events[..n] + [events[n]];
  }

  function Ascii(s: string): (b: Bytes)
    ensures |b| == |s|
  {
    seq(|s|, i requires 0 <= i < |s| => (s[i] as int) % 256)
  }

  const ERROR_EVENT := "event: error\ndata: {\"error\":{\"message\":\""

  /** `sse_error_frame`. */
  function ErrorFrame(message: string): Bytes {
    Ascii(ERROR_EVENT) + Ascii(message) + Ascii("\",\"type\":\"upstream_stream_error\"}}\n\n") + Emit(DONE)
  }

  /** A success in the ledger counts the frames sent before its terminator, and the terminator. */
  predicate CountsTerminator(sent: seq<Bytes>, r: Record) {
    HoldsSuccess(r) ==> RecordsBytes(r, SaturatingAdd(Total(sent), |Emit(DONE)|))
  }

  /** How both rows end when a stream fails for this reason, or when that could not be recorded. */
  function StreamFailed(cause: string): Terminal {
    Terminal(Failed, Some(200), Some(OtherClass(cause)))
  }

  const UNRECORDED_END := Terminal(Failed, Some(200), Some(EvidenceUnavailable))

  /** Rows that were in flight: still so, cleaned up, or failed for that reason or for want
      of a record of it, with these bytes; never cancelled by the client. */
  predicate EndsInError(before: Record, r: Record, cause: Option<string>, bytes: nat) {
    || EndsAs(before, r, UNRECORDED_END, Some(bytes), UNRECORDED_END)
    || (cause.Some? && EndsAs(before, r, StreamFailed(cause.value), Some(bytes), StreamFailed(cause.value)))
  }

  /** The rows failed like that, unless they hold a success; and for the very reason if it
      was written. */
  predicate FailedAs(before: Record, r: Record, cause: Option<string>, bytes: nat, written: bool) {
    && (!HoldsSuccess(r) ==> EndsInError(before, r, cause, bytes))
    && (cause.Some? && InFlight(before) && written ==>
          Recorded(r, StreamFailed(cause.value), Some(bytes), StreamFailed(cause.value)))
  }

  const UNCOUNTED := "request accounting unavailable"
  const UNRECORDED := "request evidence unavailable"

  predicate IsError(frame: Bytes) {
    Ascii(ERROR_EVENT) <= frame
  }

  predicate IsTerminal(frame: Bytes) {
    frame == Emit(DONE) || IsError(frame)
  }

  lemma KindsOfFrames(o: Oracle, frame: Bytes)
    requires o.trim(DONE) == DONE
    ensures IsData(o, frame) ==> !IsTerminal(frame)
    ensures !IsError(Emit(DONE))
  {
    PayloadOfEmit(DONE);
    assert ERROR_EVENT[0] == 'e' && ('e' as int) == 101;
    assert Ascii(ERROR_EVENT)[0] == 101;
    assert Emit(DONE)[0] == 100;
  }

  lemma ErrorFrameIsError(message: string)
    ensures IsError(ErrorFrame(message))
  {
    var rest := Ascii(message) + Ascii("\",\"type\":\"upstream_stream_error\"}}\n\n") + Emit(DONE);
    assert ErrorFrame(message) == Ascii(ERROR_EVENT) + rest;
  }

  /** The bytes yielded, as the 64-bit counter holds them. */
  function Total(frames: seq<Bytes>): (n: nat)
    ensures n <= U64_MAX
  {
    if frames == [] then 0 else SaturatingAdd(Total(frames[..|frames| - 1]), |frames[|frames| - 1]|)
  }

  lemma TotalOfOneMore(frames: seq<Bytes>, f: Bytes)
    ensures Total(frames + [f]) == SaturatingAdd(Total(frames), |f|)
  {
    assert (frames + [f])[..|frames|] == frames;
  }

  /** What the first await of an end leaves, and what the later ones make of it. */
  lemma TellsNothing(before: Record, between: Record, bytes: nat)
    requires InFlight(before) ==> InFlight(between) || CleanedUp(between)
    ensures Tells(before, between, bytes)
  {}

  lemma TellsAfter(before: Record, between: Record, after: Record, bytes: nat)
    requires Follows(between, after) && (InFlight(before) ==> InFlight(between) || CleanedUp(between))
    ensures Tells(between, after, bytes) ==> Tells(before, after, bytes)
  {
    if Closed(between) {
      ClosedStays(between, after);
    }
  }

  lemma WaitingFrame(o: Oracle, v: Sse, received: Bytes, yielded: seq<Bytes>, prefix: seq<Bytes>)
    requires Represents(o, v, received, yielded + prefix) && prefix != [] && o.trim(DONE) == DONE
    ensures Represents(o, v, received, (yielded + [prefix[0]]) + prefix[1..]) && !IsTerminal(prefix[0])
  {
    hide Represents, IsTerminal, IsData;
    PassedAreData(o, v, received, yielded + prefix);
    assert (yielded + prefix)[|yielded|] == prefix[0];
    KindsOfFrames(o, prefix[0]);
    assert (yielded + [prefix[0]]) + prefix[1..] == yielded + prefix;
  }

  lemma ArrivedChunk(o: Oracle, v: Sse, received: Bytes, yielded: seq<Bytes>, bytes: Bytes)
    requires Represents(o, v, received, yielded + []) && Feeding(o, v, bytes).ok
    ensures var fed := Feeding(o, v, bytes).state;
            Represents(o, fed.(emitted := []), received + bytes, yielded + ([] + fed.emitted))
  {
    hide Represents, Feeding;
    FeedingContinues(o, v, received, yielded + [], bytes);
    var fed := Feeding(o, v, bytes).state;
    assert (yielded + []) + fed.emitted == yielded + ([] + fed.emitted);
  }

  class BodyStream {
    const guard: StreamAttemptGuard
    const key: KeyId
    const oracle: Oracle
    const upstream: seq<Upstream>
    var position: nat
    var validator: Sse
    var prefix: seq<Bytes>
    var terminal: bool
    ghost var yielded: seq<Bytes>    // everything passed to the client
    ghost const store: Store
    /** The frames taken from the validator so far are those passed on and those
        still waiting. */
    ghost predicate Relays()
      reads this
    {
      && oracle.trim(DONE) == DONE && Reading()
      && Represents(oracle, validator, Received(), DataFrames() + prefix)
    }

    /** Everything up to here came in chunks. */
    ghost predicate Reading()
      reads this`position
    {
      position <= |upstream| && AllArrived(upstream[..position])
    }

    /** All the provider has sent. */
    ghost function Received(): Bytes
      requires Reading()
      reads this`position
    {
      Sent(upstream[..position])
    }

    /** The frames sent before any terminal one. */
    ghost function DataFrames(): seq<Bytes>
      reads this
    {
      if terminal && yielded != [] then yielded[..|yielded| - 1] else yielded
    }

    ghost predicate Valid()
      reads this, guard, guard.request, guard.request.store
    {
      && guard.Valid() && key == guard.streamed && Relays() && store == guard.request.store
      && (!terminal ==> !guard.terminal && guard.bytesOut == Total(yielded) && !HoldsSuccess(store.record))
      && (terminal ==> yielded != [] && IsTerminal(yielded[|yielded| - 1])
                       && Agrees(yielded[|yielded| - 1], Total(yielded), store.record))
    }

    /** The terminal frame tells what the ledger holds: the bare terminator is sent
        only when both rows say `succeeded`, with every byte counted, and the client
        got exactly what a validator makes of all the provider sent. The bytes of an
        error frame are recorded, or armed for the drop. */
    ghost predicate Agrees(last: Bytes, total: nat, record: Record)
      reads this, guard
    {
      && (last == Emit(DONE) ==>
            && Recorded(record, SUCCESS, Some(total), SUCCESS)
            && prefix == [] && Finished(validator) && guard.terminal)
      && (IsError(last) && guard.terminal ==> RecordsBytes(record, total))
      && (IsError(last) && !guard.terminal ==> guard.bytesOut == total)
    }

    /** Counting went well and the answer to the success's commit was lost. */
    ghost predicate Unheard(before: Record, since: nat) {
      InFlight(before) && store.script(since) == SMOOTH && store.script(since + 1) == UNHEARD
    }

    /** What the provider's stream does next; a stream that stays silent times out. */
    function Event(): Upstream
      reads this`position
    {
      if position < |upstream| then upstream[position] else TimedOut
    }

    /** What the client is told of an end that began at `since`; `Arrived` is a chunk the
        validator refused. */
    ghost function Message(since: nat): string
      reads this`position, this`validator
    {
      if Finished(validator) then if store.script(since).fate.Commits? then UNRECORDED else UNCOUNTED
      else
        match Event()
        case Arrived(_) => "invalid upstream stream"
        case Broken => "upstream stream failed"
        case Ended => "incomplete upstream stream"
        case TimedOut | ClientGone => "upstream stream timed out"
    }

    /** A stream fails only at what does not go on: a chunk only if it is refused. */
    ghost predicate Stuck()
      reads this`position, this`validator
    {
      Event().Arrived? ==> !Feeding(oracle, validator, Event().bytes).ok
    }

    /** What the ledger is told of it, where there is a reason. */
    ghost function Cause(since: nat): Option<string>
      reads this`position, this`validator
    {
      if Finished(validator) then
        if store.script(since).fate.Commits? then None else Some("request_accounting_unavailable")
      else
        match Event()
        case Arrived(_) => Some("upstream_protocol_error")
        case Broken => Some("upstream_stream_error")
        case Ended => Some("incomplete_upstream_stream")
        case TimedOut => Some("upstream_stream_idle_timeout")
        case ClientGone => None
    }

    /** The bytes counted when the client leaves in the middle of an end that began at
        `since`: those sent, and those of the error frame in preparation, unless the await
        that was abandoned came before any. */
    ghost predicate Counted(before: Record, since: nat)
      reads this, guard
    {
      var total := Total(yielded);
      if !Finished(validator) then
        !Event().ClientGone? && guard.bytesOut == SaturatingAdd(total, |ErrorFrame(Message(since))|)
      else if Drops(store.script(since).fate) then guard.bytesOut == total
      else if !store.script(since).fate.Commits? then guard.bytesOut == SaturatingAdd(total, |ErrorFrame(UNCOUNTED)|)
      else
        guard.bytesOut ==
        if Drops(store.script(since + 1).fate)
           || (InFlight(before) && store.script(since) == SMOOTH && store.script(since + 1) == SMOOTH)
        then total else SaturatingAdd(total, |ErrorFrame(UNRECORDED)|)
    }

    /** How the client's leaving in the middle of an end finds the rows. */
    ghost predicate Left(before: Record, since: nat)
      reads this, guard, store
    {
      Counted(before, since) && Tells(before, store.record, guard.bytesOut) && CountsTerminator(yielded, store.record)
    }

    /** What a terminal frame tells of an end that began at `since` on these rows. */
    ghost predicate Told(before: Record, since: nat)
      reads this, guard, store
    {
      && terminal && yielded != [] && store.clock > since + 1
      && Tells(before, store.record, Total(yielded)) && CountsTerminator(yielded[..|yielded| - 1], store.record)
      && (InFlight(before) && store.Smooth(since) ==> guard.terminal)
      && (IsError(yielded[|yielded| - 1]) ==>
            (HoldsSuccess(store.record) <==> Finished(validator) && Unheard(before, since)))
      && (IsError(yielded[|yielded| - 1]) ==> Booked(before, since))
    }

    /** What an end in an error frame means for the rows: they failed, for its reason if the
        terminal write went well, or the guard will still say so. */
    ghost predicate Booked(before: Record, since: nat)
      requires yielded != []
      reads this, guard, store
    {
      && yielded[|yielded| - 1] == ErrorFrame(Message(since)) && (Finished(validator) || Stuck())
      && (!guard.terminal ==> guard.dropEnd == UNRECORDED_END)
      && FailedAs(before, store.record, Cause(since), Total(yielded), WrittenAt(since))
    }

    /** A row that ended in an error frame was never cancelled. */
    lemma ErrorIsNoCancellation(before: Record, since: nat)
      requires yielded != [] && Booked(before, since) && InFlight(before)
      ensures Closed(store.record) ==> !store.record.request.value.end.outcome.Cancelled?
    {}

    /** The write of the end, the await after the one at `since`, goes well. */
    ghost predicate WrittenAt(since: nat) {
      !store.script(since).takenOver && store.script(since + 1) == SMOOTH
    }

    constructor (guard: StreamAttemptGuard, key: KeyId, oracle: Oracle, upstream: seq<Upstream>, position: nat,
                 validator: Sse, prefix: seq<Bytes>)
      requires guard.Valid() && key == guard.streamed && !guard.terminal && guard.bytesOut == 0
      requires !HoldsSuccess(guard.request.store.record)
      requires oracle.trim(DONE) == DONE && position <= |upstream| && AllArrived(upstream[..position])
      requires Represents(oracle, validator, Sent(upstream[..position]), prefix)
      ensures Valid() && !terminal && yielded == [] && this.guard == guard
      ensures this.prefix == prefix && this.validator == validator && this.oracle == oracle
              && this.store == guard.request.store
      ensures this.upstream == upstream && this.position == position
    {
      this.guard, this.key, this.oracle, this.upstream, this.position := guard, key, oracle, upstream, position;
      this.validator, this.prefix, terminal := validator, prefix, false;
      yielded, store := [], guard.request.store;
      assert [] + prefix == prefix;
    }

    /** Yields the terminal frame and ends the stream. */
    method End(last: Bytes)
      requires guard.Valid() && key == guard.streamed && Relays() && store == guard.request.store
      requires !terminal && IsTerminal(last)
      requires Agrees(last, SaturatingAdd(Total(yielded), |last|), store.record)
      modifies this`terminal, this`yielded
      ensures Valid() && terminal && yielded == old(yielded) + [last]
      ensures Total(yielded) == SaturatingAdd(Total(old(yielded)), |last|)
    {
      hide Recorded, RecordsBytes, Represents, Consistent, Lawful, HoldsSuccess, OnKey, IsError, IsTerminal;
      TotalOfOneMore(yielded, last);
      assert (yielded + [last])[..|yielded|] == yielded;
      yielded := yielded + [last];
      terminal := true;
    }

    /** The shared end of every failure: an error frame, counted before the ledger is
        asked to close; a failing health update does not stop it. */
    method FinishStreamFailure(message: string, cause: string) returns (frame: Option<Bytes>)
      requires Valid() && !terminal && !Finished(validator)
      requires !Event().ClientGone? && Stuck() && message == Message(store.clock) && Some(cause) == Cause(store.clock)
      modifies this`terminal, this`yielded, guard`terminal, guard`bytesOut, guard`dropEnd
      modifies guard.request`terminal, guard.request`permitAcquired, guard.request`dropRecovery
      modifies guard.request.store`clock, guard.request.store`record, guard.request.store`leased
      modifies guard.request.store`steps, guard.request.store`retrying, guard.request.store`holder
      ensures guard.Valid() && Follows(old(store.record), store.record) && store.clock > old(store.clock)
      ensures frame == if terminal then Some(ErrorFrame(message)) else None
      ensures IsError(ErrorFrame(message))
      ensures terminal ==> Valid() && yielded == old(yielded) + [ErrorFrame(message)]
      ensures terminal ==> !HoldsSuccess(store.record) && Told(old(store.record), old(store.clock))
      ensures !terminal ==>
                && yielded == old(yielded) && !guard.terminal && !store.Undropped(old(store.clock))
                && guard.bytesOut == SaturatingAdd(Total(yielded), |ErrorFrame(message)|)
                && Tells(old(store.record), store.record, guard.bytesOut)
                && Left(old(store.record), old(store.clock))
      ensures Drops(store.script(old(store.clock)).fate) ==>
                !terminal && store.clock == old(store.clock) + 1
                && (!store.script(old(store.clock)).takenOver ==> store.record == old(store.record))
    {
      hide Consistent, Lawful, Owned, Recorded, OnKey, Represents, HoldsSuccess, Follows, ErrorFrame, RecordsBytes,
           IsError, EndsAs, Tells, CleanedUp, Finished, Total, EndsInError, Booked, FailedAs, Message, Cause,
           SaturatingAdd, InFlight;
      var error := ErrorFrame(message);
      ErrorFrameIsError(message);
      ghost var before, began := store.record, store.clock;
      guard.RecordBytesOut(|error|);
      var bytes := guard.bytesOut;
      var reply := guard.AwaitHealth();
      ghost var between := store.record;
      TellsNothing(before, between, bytes);
      if reply.Dropped? {
        return None;
      }
      frame := FailBoth(message, cause);
      FollowsIsTransitive(before, between, store.record);
      TellsAfter(before, between, store.record, bytes);
      if terminal {
        BookedAs(before, between, began);
      }
    }

    /** The rows of an end in an error frame, put together. */
    lemma BookedAs(before: Record, between: Record, since: nat)
      requires yielded != [] && yielded[|yielded| - 1] == ErrorFrame(Message(since)) && Follows(between, store.record)
      requires Finished(validator) || Stuck()
      requires !guard.terminal ==> guard.dropEnd == UNRECORDED_END
      requires InFlight(before) ==> InFlight(between) || CleanedUp(between)
      requires InFlight(between) <==> InFlight(before) && !store.script(since).takenOver
      requires FailedAs(between, store.record, Cause(since), Total(yielded), store.script(since + 1) == SMOOTH)
      ensures Booked(before, since)
    {
      hide ErrorFrame, Total, EndsInError, Recorded, HoldsSuccess, Follows, CleanedUp, InFlight;
      ErrorsAfter(before, between, store.record, Cause(since), Total(yielded));
    }

    /** Both rows end as a failure, and the error frame goes out, already counted. */
    method FailBoth(message: string, cause: string) returns (frame: Option<Bytes>)
      requires guard.Valid() && key == guard.streamed && Relays() && store == guard.request.store
      requires !terminal && !guard.terminal && !HoldsSuccess(store.record)
      requires guard.bytesOut == SaturatingAdd(Total(yielded), |ErrorFrame(message)|)
      modifies this`terminal, this`yielded, guard`terminal, guard`bytesOut, guard`dropEnd
      modifies guard.request`terminal, guard.request`permitAcquired, guard.request`dropRecovery
      modifies guard.request.store`clock, guard.request.store`record, guard.request.store`leased
      modifies guard.request.store`steps, guard.request.store`retrying, guard.request.store`holder
      ensures guard.Valid() && Follows(old(store.record), store.record) && store.clock > old(store.clock)
      ensures frame == if terminal then Some(ErrorFrame(message)) else None
      ensures terminal ==> Valid() && yielded == old(yielded) + [ErrorFrame(message)]
      ensures !terminal ==> yielded == old(yielded) && !guard.terminal && !store.Undropped(old(store.clock))
      ensures guard.bytesOut == old(guard.bytesOut) && Tells(old(store.record), store.record, guard.bytesOut)
      ensures !HoldsSuccess(store.record)
      ensures terminal && InFlight(old(store.record)) && store.script(old(store.clock)) == SMOOTH ==> guard.terminal
      ensures FailedAs(old(store.record), store.record, Some(cause), guard.bytesOut,
                       terminal && store.script(old(store.clock)) == SMOOTH)
      ensures terminal && !guard.terminal ==> guard.dropEnd == UNRECORDED_END
      ensures terminal ==> Total(yielded) == guard.bytesOut
    {
      hide Consistent, Lawful, Owned, Recorded, OnKey, Represents, HoldsSuccess, Follows, ErrorFrame, RecordsBytes,
           IsError, EndsAs, Tells;
      var error := ErrorFrame(message);
      ErrorFrameIsError(message);
      KindsOfFrames(oracle, error);
      ghost var before := store.record;
      var bytes := guard.bytesOut;
      var end := Terminal(Failed, Some(200), Some(OtherClass(cause)));
      var result := guard.FinishRequestAndAttempt(key, end, bytes, end, bytes);
      FailureIsNoSuccess(before, store.record, end, bytes);
      EndedTells(before, store.record, end, bytes, end);
      EndedTells(before, store.record, Terminal(Failed, Some(200), Some(EvidenceUnavailable)), bytes,
                 Terminal(Failed, Some(200), Some(EvidenceUnavailable)));
      if result.StreamDropped? {
        return None;
      }
      RecordedIsClosed(store.record, end, Some(bytes), end);
      RecordedIsClosed(store.record, guard.dropEnd, Some(bytes), guard.dropEnd);
      if !result.PendingDropRetry? {
        guard.MarkTerminal();
      }
      End(error);
      frame := Some(error);
    }

    /** The request could not be counted: it ends as a failure. */
    method FinishUncounted() returns (frame: Option<Bytes>)
      requires Valid() && !terminal
      modifies this`terminal, this`yielded, guard`terminal, guard`bytesOut, guard`dropEnd
      modifies guard.request`terminal, guard.request`permitAcquired, guard.request`dropRecovery
      modifies guard.request.store`clock, guard.request.store`record, guard.request.store`leased
      modifies guard.request.store`steps, guard.request.store`retrying, guard.request.store`holder
      ensures guard.Valid() && Follows(old(store.record), store.record) && store.clock > old(store.clock)
      ensures frame == if terminal then Some(ErrorFrame(UNCOUNTED)) else None
      ensures terminal ==> Valid() && yielded == old(yielded) + [ErrorFrame(UNCOUNTED)]
      ensures !HoldsSuccess(store.record)
      ensures terminal ==> Tells(old(store.record), store.record, Total(yielded))
      ensures FailedAs(old(store.record), store.record, Some("request_accounting_unavailable"), guard.bytesOut,
                       terminal && store.script(old(store.clock)) == SMOOTH)
      ensures terminal && !guard.terminal ==> guard.dropEnd == UNRECORDED_END
      ensures terminal ==> Total(yielded) == guard.bytesOut
      ensures !terminal ==>
                && yielded == old(yielded) && !guard.terminal && !store.Undropped(old(store.clock))
                && guard.bytesOut == SaturatingAdd(Total(yielded), |ErrorFrame(UNCOUNTED)|)
                && Tells(old(store.record), store.record, guard.bytesOut)
    {
      hide Consistent, Lawful, Owned, Recorded, OnKey, Represents, HoldsSuccess, Follows, ErrorFrame, RecordsBytes,
           IsError, Tells, Total;
      guard.RecordBytesOut(|ErrorFrame(UNCOUNTED)|);
      frame := FailBoth(UNCOUNTED, "request_accounting_unavailable");
    }

    /** The request was counted: both rows succeed, or the client is told otherwise. */
    method FinishCounted() returns (frame: Option<Bytes>)
      requires Valid() && !terminal && prefix == [] && Finished(validator)
      modifies this`terminal, this`yielded, guard`terminal, guard`bytesOut, guard`dropEnd
      modifies guard.request`terminal, guard.request`permitAcquired, guard.request`dropRecovery
      modifies guard.request.store`clock, guard.request.store`record, guard.request.store`leased
      modifies guard.request.store`steps, guard.request.store`retrying, guard.request.store`holder
      ensures guard.Valid() && Follows(old(store.record), store.record) && store.clock > old(store.clock)
      ensures terminal <==> frame.Some?
      ensures terminal ==>
                && Valid() && yielded == old(yielded) + [frame.value]
                && frame.value in {Emit(DONE), ErrorFrame(UNRECORDED)}
                && Tells(old(store.record), store.record, Total(yielded))
                && (frame.value == Emit(DONE) <==>
                      InFlight(old(store.record)) && store.script(old(store.clock)) == SMOOTH)
      ensures !terminal ==>
                && yielded == old(yielded) && !guard.terminal && !store.Undropped(old(store.clock))
                && guard.bytesOut == (if NotRefused(old(store.record), store.script(old(store.clock)))
                                      then Total(yielded)
                                      else SaturatingAdd(Total(yielded), |ErrorFrame(UNRECORDED)|))
                && Tells(old(store.record), store.record, guard.bytesOut)
      ensures CountsTerminator(old(yielded), store.record)
      ensures terminal && IsError(frame.value) ==>
                && frame.value == ErrorFrame(UNRECORDED) && (!guard.terminal ==> guard.dropEnd == UNRECORDED_END)
                && FailedAs(old(store.record), store.record, None, Total(yielded),
                            store.script(old(store.clock)) == SMOOTH)
      ensures terminal && IsError(frame.value) ==>
                (HoldsSuccess(store.record) <==>
                   InFlight(old(store.record)) && store.script(old(store.clock)) == UNHEARD)
    {
      hide Consistent, Lawful, Owned, Recorded, OnKey, Represents, HoldsSuccess, Follows, ErrorFrame, RecordsBytes,
           IsError, EndsAs, Tells, Finished, Total, InFlight;
      var done, error := Emit(DONE), ErrorFrame(UNRECORDED);
      ErrorFrameIsError(UNRECORDED);
      KindsOfFrames(oracle, error);
      ghost var before := store.record;
      var successBytes := SaturatingAdd(guard.bytesOut, |done|);
      var recoveryBytes := SaturatingAdd(guard.bytesOut, |error|);
      var result := guard.FinishRequestAndAttempt(key, SUCCESS, successBytes, SUCCESS, recoveryBytes);
      SuccessTells(before, store.record, successBytes, recoveryBytes);
      SuccessCounts(before, store.record, yielded, recoveryBytes);
      SuccessOrError(before, store.record, successBytes, recoveryBytes);
      RecordedIsClosed(store.record, guard.dropEnd, Some(recoveryBytes), guard.dropEnd);
      match result {
        case RequestedTerminalCommitted =>
          guard.RecordBytesOut(|done|);
          guard.MarkTerminal();
          frame := Some(done);
        case RecoveredAsEvidenceFailure =>
          guard.MarkTerminal();
          frame := Some(error);
        case PendingDropRetry =>
          frame := Some(error);
        case StreamDropped =>
          return None;
      }
      End(frame.value);
    }

    /** The request is counted and then ends. The client gets the bare terminator
        exactly when both awaits go well; a success the client was not told of is in
        the ledger exactly when the answer to its commit was lost. */
    method FinishStreamSuccess() returns (frame: Option<Bytes>)
      requires Valid() && !terminal && prefix == [] && Finished(validator)
      modifies this`terminal, this`yielded
      modifies guard`terminal, guard`bytesOut, guard`dropEnd
      modifies guard.request`terminal, guard.request`permitAcquired, guard.request`dropRecovery
      modifies guard.request.store`clock, guard.request.store`record, guard.request.store`leased
      modifies guard.request.store`steps, guard.request.store`retrying, guard.request.store`holder
      ensures guard.Valid() && Follows(old(store.record), store.record) && store.clock > old(store.clock)
      ensures terminal <==> frame.Some?
      ensures terminal ==>
                && Valid() && yielded == old(yielded) + [frame.value] && IsTerminal(frame.value)
                && Told(old(store.record), old(store.clock))
                && (frame.value == Emit(DONE) <==>
                      && InFlight(old(store.record)) && store.script(old(store.clock)) == SMOOTH
                      && store.script(old(store.clock) + 1) == SMOOTH)
                && (IsError(frame.value) ==>
                      (HoldsSuccess(store.record) <==> Unheard(old(store.record), old(store.clock))))
      ensures !terminal ==>
                && yielded == old(yielded) && !guard.terminal && !store.Undropped(old(store.clock))
                && Left(old(store.record), old(store.clock))
      ensures Drops(store.script(old(store.clock)).fate) ==>
                !terminal && store.clock == old(store.clock) + 1
                && (!store.script(old(store.clock)).takenOver ==> store.record == old(store.record))
    {
      hide Consistent, Lawful, Owned, Recorded, OnKey, Represents, HoldsSuccess, Follows, RecordsBytes,
           IsError, EndsAs, Tells, CleanedUp, Left, Told, Unheard, Finished, Counted, CountsTerminator, Total, Booked,
           EndsInError, ErrorFrame, WrittenAt, FailedAs, Cause, Message;
      ghost var before := store.record;
      ghost var began := store.clock;
      UnrecordedIsError();
      SuccessFails(began);
      var reply := guard.AwaitHealth();
      ghost var between := store.record;
      TellsNothing(before, between, guard.bytesOut);
      match reply {
        case Dropped =>
          LeavesAtOnce(before, began);
          return None;
        case Refused =>
          frame := FinishUncounted();
          NoneCounts(yielded, store.record);
          if terminal {
            BookedAs(before, between, began);
          }
          ToldUncounted(before, between, began);
        case Done =>
          frame := FinishCounted();
          if terminal && IsError(yielded[|yielded| - 1]) {
            BookedAs(before, between, began);
          }
          ToldCounted(before, between, began);
      }
      FollowsIsTransitive(before, between, store.record);
      LeavesLater(before, between, began);
    }

    lemma LeavesAtOnce(before: Record, since: nat)
      requires Finished(validator) && Drops(store.script(since).fate) && guard.bytesOut == Total(yielded)
      requires Tells(before, store.record, guard.bytesOut) && !HoldsSuccess(store.record)
      ensures Left(before, since)
    {}

    lemma LeavesLater(before: Record, between: Record, since: nat)
      requires Finished(validator) && !Drops(store.script(since).fate)
      requires Follows(between, store.record) && (InFlight(before) ==> InFlight(between) || CleanedUp(between))
      requires InFlight(between) <==> InFlight(before) && !store.script(since).takenOver
      ensures Tells(between, store.record, guard.bytesOut) && CountsTerminator(yielded, store.record)
              && (if store.script(since).fate.Commits? then
                    guard.bytesOut == if NotRefused(between, store.script(since + 1)) then Total(yielded)
                                      else SaturatingAdd(Total(yielded), |ErrorFrame(UNRECORDED)|)
                  else guard.bytesOut == SaturatingAdd(Total(yielded), |ErrorFrame(UNCOUNTED)|)) ==>
                Left(before, since)
    {
      hide Consistent, Follows, Tells, Finished, Total;
      TellsAfter(before, between, store.record, guard.bytesOut);
    }

    lemma SuccessFails(since: nat)
      requires Finished(validator)
      ensures if store.script(since).fate.Commits? then Message(since) == UNRECORDED && Cause(since).None?
              else Message(since) == UNCOUNTED && Cause(since) == Some("request_accounting_unavailable")
    {}

    lemma UnrecordedIsError()
      requires oracle.trim(DONE) == DONE
      ensures IsError(ErrorFrame(UNCOUNTED)) && IsError(ErrorFrame(UNRECORDED)) && !IsError(Emit(DONE))
      ensures IsTerminal(ErrorFrame(UNCOUNTED)) && IsTerminal(ErrorFrame(UNRECORDED)) && IsTerminal(Emit(DONE))
    {
      ErrorFrameIsError(UNCOUNTED);
      ErrorFrameIsError(UNRECORDED);
      KindsOfFrames(oracle, Emit(DONE));
    }

    lemma ToldUncounted(before: Record, between: Record, since: nat)
      requires Follows(between, store.record) && (InFlight(before) ==> InFlight(between) || CleanedUp(between))
      requires store.clock > since + 1 && !store.script(since).fate.Commits?
      ensures !Unheard(before, since)
      ensures terminal && yielded != [] && !HoldsSuccess(store.record)
              && Tells(between, store.record, Total(yielded)) && Booked(before, since) ==>
                Told(before, since)
    {
      hide Consistent, Follows, Tells, IsError, RecordsBytes, Finished, Booked;
      TellsAfter(before, between, store.record, Total(yielded));
    }

    lemma ToldCounted(before: Record, between: Record, since: nat)
      requires Follows(between, store.record) && (InFlight(before) ==> InFlight(between) || CleanedUp(between))
      requires store.clock > since + 1 && store.script(since).fate.Commits? && Finished(validator)
      requires InFlight(between) <==> InFlight(before) && !store.script(since).takenOver
      requires terminal && yielded != [] && IsError(yielded[|yielded| - 1]) ==>
                 (HoldsSuccess(store.record) <==> InFlight(between) && store.script(since + 1) == UNHEARD)
      requires terminal && InFlight(between) && store.script(since + 1) == SMOOTH ==> guard.terminal
      ensures Unheard(before, since) <==> InFlight(between) && store.script(since + 1) == UNHEARD
      ensures terminal && yielded != [] && Tells(between, store.record, Total(yielded))
              && CountsTerminator(yielded[..|yielded| - 1], store.record)
              && (IsError(yielded[|yielded| - 1]) ==> Booked(before, since)) ==>
                Told(before, since)
    {
      hide Consistent, Follows, Tells, IsError, RecordsBytes, Finished, HoldsSuccess, Booked;
      TellsAfter(before, between, store.record, Total(yielded));
    }

    method TakeWaiting() returns (frame: Option<Bytes>)
      requires Valid() && !terminal && prefix != []
      modifies this`prefix, this`yielded, guard`bytesOut
      ensures Valid() && yielded == old(yielded) + [old(prefix)[0]] && !IsTerminal(old(prefix)[0])
      ensures frame == Some(old(prefix)[0]) && prefix == old(prefix)[1..]
    {
      hide Consistent, Lawful, Owned, Recorded, OnKey, HoldsSuccess, Follows, IsError, RecordsBytes, Represents,
           IsTerminal, Total;
      var chunk := prefix[0];
      WaitingFrame(oracle, validator, Received(), yielded, prefix);
      TotalOfOneMore(yielded, chunk);
      guard.RecordBytesOut(|chunk|);
      prefix := prefix[1..];
      yielded := yielded + [chunk];
      frame := Some(chunk);
    }

    /** Feeds a chunk to the validator and queues what it emits. */
    method TakeIn(bytes: Bytes) returns (accepted: bool)
      requires Valid() && !terminal && prefix == []
      requires position < |upstream| && upstream[position] == Arrived(bytes)
      modifies this`prefix, this`validator, this`position
      ensures Valid() && position <= old(position) + 1
      ensures accepted <==> Feeding(oracle, old(validator), bytes).ok
      ensures accepted ==> position == old(position) + 1
      ensures !accepted ==> validator == old(validator) && position == old(position)
    {
      hide Consistent, Lawful, Owned, Recorded, OnKey, HoldsSuccess, Follows, IsError, RecordsBytes, Represents,
           IsTerminal, Total, Feeding, Sent, AllArrived;
      var fed := Feeding(oracle, validator, bytes);
      if !fed.ok {
        return false;
      }
      ArrivedChunk(oracle, validator, Received(), yielded, bytes);
      SentOneMore(upstream, position);
      validator := fed.state.(emitted := []);
      prefix := prefix + fed.state.emitted;
      position := position + 1;
      accepted := true;
    }

    /** One poll: the next waiting frame, or else whatever ends the stream. */
    method Next() returns (frame: Option<Bytes>, dropped: bool)
      requires Valid()
      modifies this
      modifies guard`terminal, guard`bytesOut, guard`dropEnd
      modifies guard.request`terminal, guard.request`permitAcquired, guard.request`dropRecovery
      modifies guard.request.store`clock, guard.request.store`record, guard.request.store`leased
      modifies guard.request.store`steps, guard.request.store`retrying, guard.request.store`holder
      ensures guard.Valid() && Follows(old(store.record), store.record) && store.clock >= old(store.clock)
      ensures dropped ==> frame.None? && !terminal && yielded == old(yielded) && Relays() && !guard.terminal
      ensures !dropped ==> Valid()
      ensures old(terminal) ==> frame.None? && !dropped && store.record == old(store.record)
      ensures frame.None? <==> dropped || old(terminal)
      ensures yielded == old(yielded) + if frame.Some? then [frame.value] else []
      ensures terminal <==> old(terminal) || (frame.Some? && IsTerminal(frame.value))
      ensures !terminal && !dropped ==> store.clock == old(store.clock)
      ensures store.clock == old(store.clock) ==>
                Valid() && store.record == old(store.record) && guard.dropEnd == old(guard.dropEnd)
      ensures !old(terminal) && old(prefix) != [] ==>
                && frame == Some(old(prefix)[0]) && prefix == old(prefix)[1..] && validator == old(validator)
                && store.clock == old(store.clock) && position == old(position) && !terminal
      ensures !old(terminal) && old(prefix) == [] && Finished(old(validator)) ==>
                && store.clock > old(store.clock) && validator == old(validator)
                && (frame.Some? ==>
                      && terminal
                      && (frame.value == Emit(DONE) <==>
                            && InFlight(old(store.record)) && store.script(old(store.clock)) == SMOOTH
                            && store.script(old(store.clock) + 1) == SMOOTH))
      ensures !old(terminal) && terminal ==> Told(old(store.record), old(store.clock))
      ensures !old(terminal) && old(prefix) == [] && old(position) == |upstream| ==>
                store.clock > old(store.clock) && validator == old(validator) && position == old(position)
      ensures dropped && store.clock == old(store.clock) ==> Event().ClientGone?
      ensures dropped && store.clock > old(store.clock) ==>
                !store.Undropped(old(store.clock)) && Left(old(store.record), old(store.clock))
      ensures store.clock > old(store.clock) && Drops(store.script(old(store.clock)).fate) ==>
                dropped && store.clock == old(store.clock) + 1
                && (!store.script(old(store.clock)).takenOver ==> store.record == old(store.record))
    {
      hide Consistent, Lawful, Owned, Recorded, OnKey, Represents, HoldsSuccess, Follows, ErrorFrame, RecordsBytes,
           IsError, Tells, Unheard, Left, Told, Finished, Total, Agrees, IsTerminal, InFlight, Relays, Booked, Feeding;
      FollowsItself(store.record);
      if terminal {
        return None, false;
      }
      while true
        invariant Valid() && !terminal && yielded == old(yielded)
        invariant store.record == old(store.record) && store.clock == old(store.clock)
                  && guard.dropEnd == old(guard.dropEnd)
        invariant old(prefix) != [] || Finished(old(validator)) || old(position) == |upstream| ==>
                    prefix == old(prefix) && validator == old(validator) && position == old(position)
        decreases |upstream| - position
      {
        if prefix != [] {
          frame := TakeWaiting();
          return frame, false;
        }
        if Finished(validator) {
          frame := FinishStreamSuccess();
          return frame, frame.None?;
        }
        var event := if position < |upstream| then upstream[position] else TimedOut;
        var message, cause;
        match event {
          case Arrived(bytes) =>
            var accepted := TakeIn(bytes);
            if accepted {
              continue;
            }
            message, cause := "invalid upstream stream", "upstream_protocol_error";
          case Broken => message, cause := "upstream stream failed", "upstream_stream_error";
          case Ended => message, cause := "incomplete upstream stream", "incomplete_upstream_stream";
          case TimedOut => message, cause := "upstream stream timed out", "upstream_stream_idle_timeout";
          case ClientGone => return None, true;
        }
        frame := FinishStreamFailure(message, cause);
        return frame, frame.None?;
      }
    }

    /** The body goes away, and the guard with it. `midway`: the client left while
        the ledger was being asked to close. */
    method Drop(ghost first: Record, ghost began: nat) returns (ghost midway: bool)
      requires guard.Valid() && store == guard.request.store && Relays()
      requires Follows(first, store.record) && store.clock >= began
      requires terminal ==> Valid() && Told(first, began)
      requires !terminal && store.clock == began ==> Valid() && store.record == first
      requires !terminal && store.clock > began ==> !guard.terminal && !store.Undropped(began) && Left(first, began)
      modifies guard.request`terminal, guard.request`permitAcquired, guard.request`dropRecovery
      modifies guard.request.store`clock, guard.request.store`record, guard.request.store`leased
      modifies guard.request.store`steps, guard.request.store`retrying, guard.request.store`holder
      ensures store.Valid() && |store.record.attempts| == guard.attempts
      ensures store.holder == null || store.holder == store
      ensures Follows(old(store.record), store.record) && Follows(first, store.record)
      ensures store.clock >= old(store.clock) && store.clock > began
      ensures HoldsSuccess(store.record) <==> HoldsSuccess(old(store.record))
      ensures midway <==> !terminal && old(store.clock) > began
      ensures !midway ==> Tells(first, store.record, Total(yielded))
      ensures midway ==> !store.Undropped(began) && Left(first, began)
      ensures terminal && IsError(yielded[|yielded| - 1]) ==> Booked(first, began)
      ensures CountsTerminator(DataFrames(), store.record)
      ensures !guard.terminal && InFlight(old(store.record)) && store.script(old(store.clock)) == SMOOTH ==>
                RecordsBytes(store.record, guard.bytesOut)
      ensures !midway && !terminal ==> EndsAs(first, store.record, guard.dropEnd, Some(Total(yielded)), guard.dropEnd)
      ensures Closed(store.record) || LastFailed(store)
      ensures InFlight(first) && store.Smooth(began) ==> RecordsBytes(store.record, Total(yielded))
    {
      hide Consistent, Lawful, Owned, Recorded, OnKey, HoldsSuccess, IsError, IsTerminal, Follows, RecordsBytes,
           Represents, Total, Finished, Tells, EndsAs, CleanedUp, Unheard, Counted, CountsTerminator, FailedAs, Message,
           Cause, WrittenAt, ErrorFrame;
      midway := !terminal && store.clock > began;
      ghost var before := store.record;
      if terminal {
        KnownKinds(yielded[|yielded| - 1], oracle);
        RecordedIsClosed(before, SUCCESS, Some(Total(yielded)), SUCCESS);
      } else if store.clock == began {
        NoneCounts(yielded, before);
      }
      guard.Drop();
      if terminal && IsError(yielded[|yielded| - 1]) {
        FailedAsStays(first, before, store.record, Cause(began), Total(yielded), WrittenAt(began));
      }
      StillCounts(DataFrames(), before, store.record);
      FollowsIsTransitive(first, before, store.record);
      DropTells(first, before, store.record, guard.dropEnd, guard.bytesOut, Total(yielded));
      DropTells(first, before, store.record, guard.dropEnd, guard.bytesOut, guard.bytesOut);
      EndedTells(first, store.record, guard.dropEnd, guard.bytesOut, guard.dropEnd);
      RecordedIsClosed(store.record, guard.dropEnd, Some(guard.bytesOut), guard.dropEnd);
      if guard.terminal {
        ClosedStays(before, store.record);
      }
    }

    /** A whole life of the body: the client polls until the stream ends, or leaves
        after some frames or in the middle of a poll; then the body is dropped. */
    method Serve(polls: nat) returns (ghost midway: bool)
      requires Valid() && !terminal && yielded == []
      modifies this
      modifies guard`terminal, guard`bytesOut, guard`dropEnd
      modifies guard.request`terminal, guard.request`permitAcquired, guard.request`dropRecovery
      modifies guard.request.store`clock, guard.request.store`record, guard.request.store`leased
      modifies guard.request.store`steps, guard.request.store`retrying, guard.request.store`holder
      ensures store.Valid() && |store.record.attempts| == guard.attempts
      ensures store.holder == null || store.holder == store
      ensures Follows(old(store.record), store.record) && store.clock > old(store.clock)
      ensures forall i | 0 <= i < |yielded| - 1 :: !IsTerminal(yielded[i])
      ensures Relays()
      // the bare terminator: everything was relayed, counted and recorded
      ensures yielded != [] && yielded[|yielded| - 1] == Emit(DONE) ==>
                && Recorded(store.record, SUCCESS, Some(Total(yielded)), SUCCESS)
                && Drain(oracle, FRESH.(buffer := Received())).state.emitted == yielded[..|yielded| - 1]
                && Finished(Drain(oracle, FRESH.(buffer := Received())).state)
      // an error frame: no success, but for the one whose commit was not heard of
      ensures terminal ==> store.clock > old(store.clock) + 1
      ensures yielded != [] && IsError(yielded[|yielded| - 1]) ==>
                && terminal &&
                (HoldsSuccess(store.record) <==> Finished(validator) && Unheard(old(store.record), old(store.clock)))
      // what went wrong is what the client and the ledger are told
      ensures yielded != [] && IsError(yielded[|yielded| - 1]) ==> Booked(old(store.record), old(store.clock))
      // the bytes: whoever closed the rows counted what was sent
      ensures !midway ==> Tells(old(store.record), store.record, Total(yielded))
      ensures midway ==> !terminal && !store.Undropped(old(store.clock)) && Left(old(store.record), old(store.clock))
      ensures CountsTerminator(DataFrames(), store.record)
      ensures !midway && !terminal ==>
                EndsAs(old(store.record), store.record, old(guard.dropEnd), Some(Total(yielded)), old(guard.dropEnd))
      ensures Closed(store.record) || LastFailed(store)
      ensures InFlight(old(store.record)) && store.Smooth(old(store.clock)) ==>
                RecordsBytes(store.record, Total(yielded))
    {
      hide Consistent, Lawful, Owned, Recorded, OnKey, HoldsSuccess, IsError, IsTerminal, Follows, RecordsBytes,
           Represents, Drain, Total, Finished, Tells, EndsAs, Unheard, CleanedUp, Left, Told, CountsTerminator,
           Booked, Agrees;
      ghost var first := store.record;
      ghost var began := store.clock;
      FollowsItself(first);
      var n := 0;
      var over := false;
      while n < polls && !over
        invariant guard.Valid() && Relays() && Follows(first, store.record) && store.clock >= began
        invariant terminal ==> Valid() && over && Told(first, began)
        invariant !terminal && store.clock == began ==>
                    Valid() && store.record == first && guard.dropEnd == old(guard.dropEnd)
        invariant !terminal && store.clock > began ==>
                    over && !guard.terminal && !store.Undropped(began) && Left(first, began)
        invariant forall i | 0 <= i < |yielded| :: IsTerminal(yielded[i]) ==> terminal && i == |yielded| - 1
        decreases polls - n
      {
        ghost var before := store.record;
        ghost var soFar := yielded;
        var frame, dropped := Next();
        FollowsIsTransitive(first, before, store.record);
        assert forall i | 0 <= i < |soFar| :: yielded[i] == soFar[i];
        over := dropped || terminal;
        n := n + 1;
      }
      ghost var before := store.record;
      if yielded != [] {
        TerminalKinds(yielded[|yielded| - 1]);
      }
      ToldOfErrors(first, began);
      TerminatorAgrees();
      midway := Drop(first, began);
      if terminal && yielded[|yielded| - 1] == Emit(DONE) {
        RecordedStays(before, store.record, SUCCESS, Some(Total(yielded)), SUCCESS);
        RelayedAll();
      }
    }

    lemma TerminatorAgrees()
      ensures Valid() && terminal && yielded[|yielded| - 1] == Emit(DONE) ==>
                Recorded(store.record, SUCCESS, Some(Total(yielded)), SUCCESS) && prefix == [] && Finished(validator)
    {}

    lemma ToldOfErrors(before: Record, since: nat)
      ensures Told(before, since) ==> store.clock > since + 1
      ensures Told(before, since) && IsError(yielded[|yielded| - 1]) ==>
                (HoldsSuccess(store.record) <==> Finished(validator) && Unheard(before, since))
    {}

    lemma RelayedAll()
      requires Relays() && terminal && yielded != [] && prefix == []
      ensures Drain(oracle, FRESH.(buffer := Received())).state.emitted == yielded[..|yielded| - 1]
      ensures Finished(Drain(oracle, FRESH.(buffer := Received())).state) <==> Finished(validator)
    {
      hide Drain;
      assert yielded[..|yielded| - 1] + [] == yielded[..|yielded| - 1];
      FinishedIgnoresEmitted(validator, yielded[..|yielded| - 1]);
    }
  }

  lemma KnownKinds(frame: Bytes, o: Oracle)
    requires o.trim(DONE) == DONE && IsTerminal(frame)
    ensures frame == Emit(DONE) || IsError(frame)
  {}

  lemma SuccessTells(before: Record, r: Record, bytes: nat, recoveryBytes: nat)
    ensures var recovery := Terminal(Failed, Some(200), Some(EvidenceUnavailable));
            EndsAs(before, r, SUCCESS, Some(bytes), SUCCESS)
            || EndsAs(before, r, recovery, Some(recoveryBytes), recovery) ==>
              Tells(before, r, recoveryBytes)
    ensures forall other :: EndsAs(before, r, SUCCESS, Some(bytes), SUCCESS) ==> Tells(before, r, other)
    ensures Recorded(r, SUCCESS, Some(bytes), SUCCESS) ==>
              Closed(r) && RecordsBytes(r, bytes) && Tells(before, r, bytes)
  {}

  lemma StillCounts(sent: seq<Bytes>, before: Record, after: Record)
    requires Follows(before, after) && (HoldsSuccess(after) <==> HoldsSuccess(before)) && Consistent(before)
    ensures CountsTerminator(sent, before) ==> CountsTerminator(sent, after)
  {
    if Closed(before) {
      ClosedStays(before, after);
    }
  }

  lemma SuccessOrError(before: Record, r: Record, bytes: nat, recoveryBytes: nat)
    ensures (EndsAs(before, r, SUCCESS, Some(bytes), SUCCESS)
             || EndsAs(before, r, UNRECORDED_END, Some(recoveryBytes), UNRECORDED_END))
            && !HoldsSuccess(r) ==>
              EndsInError(before, r, None, recoveryBytes)
  {}

  lemma ErrorsAfter(before: Record, between: Record, r: Record, cause: Option<string>, bytes: nat)
    requires Follows(between, r) && (InFlight(before) ==> InFlight(between) || CleanedUp(between))
    ensures EndsInError(between, r, cause, bytes) ==> EndsInError(before, r, cause, bytes)
  {
    if CleanedUp(between) {
      ClosedStays(between, r);
    }
  }

  lemma FailedAsStays(first: Record, before: Record, after: Record, cause: Option<string>, bytes: nat, written: bool)
    requires Follows(before, after) && FailedAs(first, before, cause, bytes, written)
    requires HoldsSuccess(before) <==> HoldsSuccess(after)
    requires InFlight(before) ==> EndsAs(before, after, UNRECORDED_END, Some(bytes), UNRECORDED_END)
    ensures FailedAs(first, after, cause, bytes, written)
  {
    if Closed(before) {
      ClosedStays(before, after);
    }
  }

  lemma NoneCounts(sent: seq<Bytes>, r: Record)
    requires !HoldsSuccess(r)
    ensures CountsTerminator(sent, r)
  {}

  lemma SuccessIsTold(before: Record, r: Record, attempt: Terminal, bytes: Option<nat>, row: Terminal)
    requires Follows(before, r) && before.request.Some? && Consistent(r) && !HoldsSuccess(before)
    requires EndsAs(before, r, attempt, bytes, row) && HoldsSuccess(r)
    ensures row.outcome.Succeeded? && Recorded(r, attempt, bytes, row)
  {}

  lemma SuccessCounts(before: Record, r: Record, sent: seq<Bytes>, recoveryBytes: nat)
    requires Follows(before, r) && before.request.Some? && Consistent(r) && !HoldsSuccess(before)
    ensures var bytes := SaturatingAdd(Total(sent), |Emit(DONE)|);
            var recovery := Terminal(Failed, Some(200), Some(EvidenceUnavailable));
            EndsAs(before, r, SUCCESS, Some(bytes), SUCCESS)
            || EndsAs(before, r, recovery, Some(recoveryBytes), recovery) ==>
              CountsTerminator(sent, r)
  {
    hide Total, Emit, Consistent, Follows, EndsAs, HoldsSuccess;
    var bytes := SaturatingAdd(Total(sent), |Emit(DONE)|);
    var recovery := Terminal(Failed, Some(200), Some(EvidenceUnavailable));
    if HoldsSuccess(r) && EndsAs(before, r, SUCCESS, Some(bytes), SUCCESS) {
      SuccessIsTold(before, r, SUCCESS, Some(bytes), SUCCESS);
    } else if HoldsSuccess(r) && EndsAs(before, r, recovery, Some(recoveryBytes), recovery) {
      SuccessIsTold(before, r, recovery, Some(recoveryBytes), recovery);
    }
  }

  lemma FailureIsNoSuccess(before: Record, r: Record, end: Terminal, bytes: nat)
    requires Follows(before, r) && before.request.Some? && Consistent(r) && !HoldsSuccess(before)
    requires !end.outcome.Succeeded?
    ensures var recovery := Terminal(Failed, end.status, Some(EvidenceUnavailable));
            EndsAs(before, r, end, Some(bytes), end) || EndsAs(before, r, recovery, Some(bytes), recovery) ==>
              !HoldsSuccess(r)
  {
    hide Consistent, Follows, EndsAs, HoldsSuccess;
    var recovery := Terminal(Failed, end.status, Some(EvidenceUnavailable));
    if HoldsSuccess(r) && EndsAs(before, r, end, Some(bytes), end) {
      SuccessIsTold(before, r, end, Some(bytes), end);
    } else if HoldsSuccess(r) && EndsAs(before, r, recovery, Some(bytes), recovery) {
      SuccessIsTold(before, r, recovery, Some(bytes), recovery);
    }
  }

  /** What is true of the rows before the drop, with the armed bytes, stays true. */
  lemma DropTells(first: Record, before: Record, after: Record, end: Terminal, armed: nat, total: nat)
    requires Follows(first, before) && Follows(before, after)
    requires InFlight(before) ==> EndsAs(before, after, end, Some(armed), end)
    ensures Tells(first, before, total) && (InFlight(before) ==> armed == total) ==> Tells(first, after, total)
  {
    if Closed(before) {
      ClosedStays(before, after);
    }
  }

  lemma TerminalKinds(frame: Bytes)
    ensures frame == Emit(DONE) || IsError(frame) ==> IsTerminal(frame)
  {}

  lemma FinishedIgnoresEmitted(v: Sse, e: seq<Bytes>)
    ensures Finished(v.(emitted := e)) <==> Finished(v)
  {}

  /** `prime_stream`: reads until one data frame is validated, so that failover is
      still possible when a provider ends early. What it hands over represents all
      it has read, and nothing waited before its last chunk; it gives up exactly where
      the stream ends, breaks off or sends a chunk that is refused before that. */
  method PrimeStream(oracle: Oracle, upstream: seq<Upstream>)
      returns (ok: bool, position: nat, validator: Sse, prefix: seq<Bytes>)
    requires oracle.trim(DONE) == DONE
    ensures position <= |upstream| && AllArrived(upstream[..position])
    ensures Represents(oracle, validator, Sent(upstream[..position]), prefix)
    ensures ok <==> prefix != []
    ensures ok ==> validator.dataFrames >= 1 && position > 0
    ensures ok ==> Drain(oracle, FRESH.(buffer := Sent(upstream[..position - 1]))).state.emitted == []
    ensures !ok ==>
              || position == |upstream| || !upstream[position].Arrived?
              || !Feeding(oracle, validator, upstream[position].bytes).ok
  {
    hide Drain, Feeding, Sent, AllArrived;
    ok, position, validator, prefix := false, 0, FRESH, [];
    NothingSent(oracle, upstream);
    while position < |upstream|
      invariant position <= |upstream| && AllArrived(upstream[..position]) && prefix == []
      invariant Represents(oracle, validator, Sent(upstream[..position]), prefix)
    {
      if !upstream[position].Arrived? {
        return;
      }
      var bytes := upstream[position].bytes;
      var fed := Feeding(oracle, validator, bytes);
      if !fed.ok {
        return;
      }
      SentOneMore(upstream, position);
      FeedingContinues(oracle, validator, Sent(upstream[..position]), prefix, bytes);
      position := position + 1;
      prefix := prefix + fed.state.emitted;
      validator := fed.state.(emitted := []);
      CountedFramesWait(oracle, validator, Sent(upstream[..position]), prefix);
      if validator.dataFrames > 0 {
        ok := true;
        return;
      }
      if |prefix| > 256 {  // never: frames wait only once one was counted
        assert false;
      }
    }
  }

  lemma NothingSent(o: Oracle, upstream: seq<Upstream>)
    ensures AllArrived(upstream[..0]) && Sent(upstream[..0]) == []
    ensures Represents(o, FRESH, Sent(upstream[..0]), [])
  {
    FreshRepresentsNothing(o);
  }

  lemma FreshRepresentsNothing(o: Oracle)
    ensures Represents(o, FRESH, [], [])
  {
    assert NextDelimiter([]).None?;
  }

  lemma CountedFramesWait(o: Oracle, v: Sse, received: Bytes, passed: seq<Bytes>)
    requires Represents(o, v, received, passed)
    ensures v.dataFrames == Min(|passed|, U64_MAX)
  {
    DrainedIsEmittable(o, FRESH.(buffer := received));
  }

  // ---- A success told as an error ---------------------------------------------------

  const ONE: Bytes := [49]
  const EASY := Oracle((data: Bytes) => data, (data: Bytes) => Some(Chunk(ONE, ONE, true)))
  const SHORT := Sse([], [Emit(ONE)], true, 2, 1, Some(ONE), Some(ONE))

  /** One frame and the terminator. */
  lemma ShortStream()
    ensures EASY.trim(DONE) == DONE
    ensures Represents(EASY, SHORT.(emitted := []), Emit(ONE) + Emit(DONE), [Emit(ONE)])
    ensures Finished(SHORT.(emitted := []))
  {
    hide Drain, Emit;
    assert Valid(ONE) by {
      assert Width(ONE) == 1 && ONE[1..] == [];
    }
    var v := FRESH.(buffer := Emit(ONE) + Emit(DONE));
    assert ONE != DONE by {
      assert |DONE| != |ONE|;
    }
    EmittedFrameIsDrained(EASY, v, ONE, Emit(DONE));
    var w := Sse(Emit(DONE), [Emit(ONE)], false, 1, 1, Some(ONE), Some(ONE));
    assert Accept(EASY, v.(buffer := Emit(DONE)), ONE) == Fed(w, true) by {
      assert [] + [Emit(ONE)] == [Emit(ONE)];
    }
    TerminatorIsDrained(EASY, w);
    NothingToCut();
  }

  lemma AdmittedIsOnKey(r: Record, key: KeyId, owner: OwnerId)
    requires Consistent(r) && InFlight(r) && r.attempts == [AttemptRow(key, Some(owner), 1, STARTED, None, None)]
    ensures OnKey(r, key) && !HoldsSuccess(r)
  {}

  lemma OneChunkSent(bytes: Bytes)
    ensures AllArrived([Arrived(bytes)][..1]) && Sent([Arrived(bytes)][..1]) == bytes
  {
    var events := [Arrived(bytes)];
    assert events[..1] == events;
    SentOneMore(events, 0);
  }

  /** A body whose stream is whole, its one frame still waiting, and the answer to
      whose final commit will be lost. */
  method ShortBody() returns (body: BodyStream)
    ensures fresh(body) && fresh(body.guard) && fresh(body.guard.request) && fresh(body.store)
    ensures body.Valid() && !body.terminal && body.yielded == [] && body.oracle == EASY
    ensures body.prefix == [Emit(ONE)] && body.validator == SHORT.(emitted := [])
    ensures InFlight(body.store.record) && body.store.clock == 1
    ensures forall t :: body.store.script(t) == if t == 2 then UNHEARD else SMOOTH
  {
    hide Represents, Emit, Lawful, Owned, Finished, Consistent, HoldsSuccess, OnKey, InFlight, Follows, Held, Sent,
         AllArrived;
    ShortStream();
    var store := new Store(0, t => if t == 2 then UNHEARD else SMOOTH);
    var admission, evidence := RequestEvidence.Admit(store, false, true, Some(0));
    AdmittedIsOnKey(store.record, 0, 0);
    var guard := new StreamAttemptGuard(evidence, 0);
    guard.MarkResponseCommitted(200);
    OneChunkSent(Emit(ONE) + Emit(DONE));
    body := new BodyStream(guard, 0, EASY, [Arrived(Emit(ONE) + Emit(DONE))], 1, SHORT.(emitted := []), [Emit(ONE)]);
  }

  /** The end of a whole stream whose final commit goes through unheard: an error frame,
      and a row that says `succeeded`. */
  method EndUnheard(body: BodyStream) returns (last: Bytes)
    requires body.Valid() && !body.terminal && body.prefix == [] && Finished(body.validator)
    requires InFlight(body.store.record)
    requires forall t :: body.store.script(t) == if t == body.store.clock + 1 then UNHEARD else SMOOTH
    modifies body
    modifies body.guard`terminal, body.guard`bytesOut, body.guard`dropEnd
    modifies body.guard.request`terminal, body.guard.request`permitAcquired, body.guard.request`dropRecovery
    modifies body.store`clock, body.store`record, body.store`leased, body.store`steps, body.store`retrying
    modifies body.store`holder
    ensures body.yielded == old(body.yielded) + [last]
    ensures IsError(last) && HoldsSuccess(body.store.record) && CountsTerminator(old(body.yielded), body.store.record)
  {
    hide Represents, Emit, Consistent, Lawful, Owned, Finished, Recorded, RecordsBytes, Tells, EndsAs, HoldsSuccess,
         IsError, IsTerminal, Follows, InFlight, Total;
    ghost var began := body.store.clock;
    ghost var first := body.store.record;
    FollowsItself(first);
    var frame, dropped := body.Next();
    last := frame.value;
    KnownKinds(last, body.oracle);
    ghost var midway := body.Drop(first, began);
    assert body.DataFrames() == old(body.yielded);
  }

  /** A request whose client was sent the error frame while its row says `succeeded`:
      the commit of the success went through and its answer was lost. */
  method SucceedUnheard() returns (body: BodyStream)
    ensures |body.yielded| == 2 && body.yielded[0] == Emit(ONE) && IsError(body.yielded[1])
    ensures HoldsSuccess(body.store.record)
    ensures RecordsBytes(body.store.record, SaturatingAdd(Total([Emit(ONE)]), |Emit(DONE)|))
  {
    hide Represents, Emit, Consistent, Lawful, Owned, Finished, Recorded, RecordsBytes, Tells, EndsAs, HoldsSuccess,
         IsError, IsTerminal, Follows;
    ShortStream();
    body := ShortBody();
    var frame, dropped := body.Next();
    var last := EndUnheard(body);
  }

  // ---- A frame counted and not sent ---------------------------------------------------

  const STALLED := Sse([], [], false, 1, 1, Some(ONE), Some(ONE))

  /** One frame and nothing after it. */
  lemma StalledStream()
    ensures EASY.trim(DONE) == DONE && !Finished(STALLED)
    ensures Represents(EASY, STALLED, Emit(ONE), [Emit(ONE)])
  {
    hide Drain, Emit;
    assert Valid(ONE) by {
      assert Width(ONE) == 1 && ONE[1..] == [];
    }
    assert ONE != DONE by {
      assert |DONE| != |ONE|;
    }
    var v := FRESH.(buffer := Emit(ONE));
    assert v.buffer == Emit(ONE) + [];
    EmittedFrameIsDrained(EASY, v, ONE, []);
    var w := STALLED.(emitted := [Emit(ONE)]);
    assert Accept(EASY, v.(buffer := []), ONE) == Fed(w, true) by {
      assert [] + [Emit(ONE)] == [Emit(ONE)];
    }
    EmptyIsDrained(EASY, w);
    NothingToCut();
  }

  method StalledBody() returns (body: BodyStream)
    ensures fresh(body) && fresh(body.guard) && fresh(body.guard.request) && fresh(body.store)
    ensures body.Valid() && !body.terminal && body.yielded == [] && body.position == |body.upstream|
    ensures body.prefix == [Emit(ONE)] && body.validator == STALLED
    ensures InFlight(body.store.record) && body.store.clock == 1
    ensures forall t :: body.store.script(t) == if t == 1 then Moment(DropBefore, false) else SMOOTH
  {
    hide Represents, Emit, Lawful, Owned, Finished, Consistent, HoldsSuccess, OnKey, InFlight, Follows, Held, Sent,
         AllArrived;
    StalledStream();
    var store := new Store(0, t => if t == 1 then Moment(DropBefore, false) else SMOOTH);
    var admission, evidence := RequestEvidence.Admit(store, false, true, Some(0));
    AdmittedIsOnKey(store.record, 0, 0);
    var guard := new StreamAttemptGuard(evidence, 0);
    guard.MarkResponseCommitted(200);
    OneChunkSent(Emit(ONE));
    body := new BodyStream(guard, 0, EASY, [Arrived(Emit(ONE))], 1, STALLED, [Emit(ONE)]);
  }

  /** A stalled stream times out, and its client leaves before anything is recorded. */
  method TimeOutAlone(body: BodyStream)
    requires body.Valid() && !body.terminal && body.prefix == [] && !Finished(body.validator)
    requires body.position == |body.upstream| && InFlight(body.store.record)
    requires body.store.script(body.store.clock) == Moment(DropBefore, false)
    modifies body
    modifies body.guard`terminal, body.guard`bytesOut, body.guard`dropEnd
    modifies body.guard.request`terminal, body.guard.request`permitAcquired, body.guard.request`dropRecovery
    modifies body.store`clock, body.store`record, body.store`leased, body.store`steps, body.store`retrying
    modifies body.store`holder
    ensures body.guard.Valid() && body.Relays() && !body.terminal && !body.guard.terminal
    ensures body.yielded == old(body.yielded) && body.store.record == old(body.store.record)
    ensures body.store.clock == old(body.store.clock) + 1 && !body.store.Undropped(old(body.store.clock))
    ensures body.Left(old(body.store.record), old(body.store.clock))
    ensures body.guard.bytesOut == SaturatingAdd(Total(body.yielded), |ErrorFrame("upstream stream timed out")|)
  {
    hide Represents, Emit, Consistent, Lawful, Owned, Finished, Recorded, RecordsBytes, Tells, EndsAs, HoldsSuccess,
         IsError, IsTerminal, Follows, ErrorFrame, InFlight, Total, CountsTerminator, BodyStream.Told,
         BodyStream.Relays, BodyStream.Agrees, BodyStream.Unheard;
    var frame, dropped := body.Next();
  }

  /** The body then goes away, and its guard records what it had counted. */
  method StallAndLeave(body: BodyStream)
    requires body.Valid() && !body.terminal && body.prefix == [] && !Finished(body.validator)
    requires body.position == |body.upstream| && InFlight(body.store.record)
    requires body.store.script(body.store.clock) == Moment(DropBefore, false)
    requires body.store.script(body.store.clock + 1) == SMOOTH
    modifies body
    modifies body.guard`terminal, body.guard`bytesOut, body.guard`dropEnd
    modifies body.guard.request`terminal, body.guard.request`permitAcquired, body.guard.request`dropRecovery
    modifies body.store`clock, body.store`record, body.store`leased, body.store`steps, body.store`retrying
    modifies body.store`holder
    ensures body.yielded == old(body.yielded) && RecordsBytes(body.store.record, body.guard.bytesOut)
    ensures body.guard.bytesOut == SaturatingAdd(Total(body.yielded), |ErrorFrame("upstream stream timed out")|)
  {
    hide Represents, Emit, Consistent, Lawful, Owned, Finished, Recorded, RecordsBytes, Tells, EndsAs, HoldsSuccess,
         IsError, IsTerminal, Follows, ErrorFrame, InFlight, Total, CountsTerminator, BodyStream.Told,
         BodyStream.Left, BodyStream.Agrees, BodyStream.Unheard;
    ghost var first, began := body.store.record, body.store.clock;
    FollowsItself(first);
    TimeOutAlone(body);
    ghost var midway := body.Drop(first, began);
  }

  /** A client that leaves while the failure of its stalled stream is being recorded: it
      was sent one frame, and the ledger counts the error frame as well. */
  method LeaveDuringFailure() returns (body: BodyStream)
    ensures body.yielded == [Emit(ONE)]
    ensures RecordsBytes(body.store.record, body.guard.bytesOut) && body.guard.bytesOut > Total(body.yielded)
    ensures body.guard.bytesOut == SaturatingAdd(Total(body.yielded), |ErrorFrame("upstream stream timed out")|)
  {
    hide Represents, Emit, Consistent, Lawful, Owned, Finished, Recorded, RecordsBytes, Tells, EndsAs, HoldsSuccess,
         IsError, IsTerminal, Follows, ErrorFrame, BodyStream.Left, BodyStream.Told, BodyStream.Agrees,
         BodyStream.Relays, CountsTerminator;
    StalledStream();
    body := StalledBody();
    var frame, dropped := body.Next();
    assert body.yielded == [Emit(ONE)];
    ErrorFramesCount();
    StallAndLeave(body);
  }

  lemma ErrorFramesCount()
    ensures Total([Emit(ONE)]) == 9 && forall message :: |ErrorFrame(message)| > 0
  {
    TotalOfOneMore([], Emit(ONE));
    assert [] + [Emit(ONE)] == [Emit(ONE)] && |Emit(ONE)| == 9;
  }
}
