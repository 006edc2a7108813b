/** The request ledger: the rows PostgreSQL keeps for one request id, and the
    transactions of the gateway on them.

    Every statement of these transactions selects by request id (the restart
    cleanup works row by row), so one request's rows form a record of their own.
    A transaction is a function from the record to the record it commits; `None`
    is the `bail!` or constraint violation that rolls it back. */
module Ledger {
  import opened Common

  type KeyId = nat
  type OwnerId = nat
  type Time = nat

  datatype Outcome = Started | Succeeded | Failed | Cancelled | Rejected | AbandonedAfterRestart

  datatype ErrorClass =
    | RequestRejected                 // upstream_request_rejected
    | UpstreamRateLimited
    | NoEligibleUpstream
    | EvidenceUnavailable
    | HandlerAbandoned
    | DownstreamCancelled
    | OwnerLeaseExpired
    | OtherClass(text: string)

  /** How a row ends: `AttemptTerminal`, `RequestTerminal` or the drop recovery. */
  datatype Terminal = Terminal(outcome: Outcome, status: Option<nat>, error: Option<ErrorClass>)

  datatype RequestRow = RequestRow(owner: Option<OwnerId>, end: Terminal, failovers: nat, finished: Option<Time>)
  datatype AttemptRow = AttemptRow(key: KeyId, owner: Option<OwnerId>, number: nat, end: Terminal,
                                   bytesOut: Option<nat>, finished: Option<Time>)
  datatype PermitRow = PermitRow(owner: Option<OwnerId>, released: Option<Time>)

  datatype Record = Record(request: Option<RequestRow>, attempts: seq<AttemptRow>, permit: Option<PermitRow>)

  const EMPTY := Record(None, [], None)
  const STARTED := Terminal(Started, None, None)
  const MAX_ATTEMPTS := 8  // CHECK (attempt_no BETWEEN 1 AND 8)

  // ---- Transactions --------------------------------------------------------

  datatype Transaction =
    | AcquirePermit
    | ReleasePermit
    | StartSelected(selected: Option<KeyId>)
    | StartAttempt(key: KeyId)
    | FinishAttempt(key: KeyId, end: Terminal, bytesOut: Option<nat>)
    | FinishBoth(key: KeyId, end: Terminal, bytesOut: Option<nat>, request: Terminal)
    | FinishOpen(end: Terminal, bytes: nat)
    | RestartCleanup(expired: set<OwnerId>)
    | ResponseStarted(key: KeyId)  // the time to the first byte
    | OtherTables  // key health, counters, settings

  predicate Open(a: AttemptRow) {
    a.finished.None?
  }

  predicate Closed(r: Record) {
    r.request.Some? && r.request.value.finished.Some?
  }

  /** `max(attempt_no)`, or zero. */
  function MaxNumber(attempts: seq<AttemptRow>): (m: nat)
    ensures forall a | a in attempts :: a.number <= m
  {
    if attempts == [] then 0
    else Max(MaxNumber(attempts[..|attempts| - 1]), attempts[|attempts| - 1].number)
  }

  /** The newest open attempt of this key and owner: ORDER BY created_at DESC LIMIT 1. */
  function NewestOpen(attempts: seq<AttemptRow>, key: KeyId, owner: OwnerId): (i: Option<nat>)
    ensures i.Some? ==> i.value < |attempts| && Open(attempts[i.value])
                        && attempts[i.value].key == key && attempts[i.value].owner == Some(owner)
    ensures forall j | (if i.Some? then i.value else -1) < j < |attempts| ::
              !(Open(attempts[j]) && attempts[j].key == key && attempts[j].owner == Some(owner))
  {
    if attempts == [] then None
    else
      var n := |attempts| - 1;
      if Open(attempts[n]) && attempts[n].key == key && attempts[n].owner == Some(owner) then Some(n)
      else NewestOpen(attempts[..n], key, owner)
  }

  /** `failover_count`: GREATEST(0, count(*) - 1). */
  function Failovers(attempts: seq<AttemptRow>): nat {
    Max(0, |attempts| - 1)
  }

  function CloseAttempt(a: AttemptRow, end: Terminal, bytesOut: Option<nat>, now: Time): AttemptRow {
    a.(end := end, bytesOut := bytesOut, finished := Some(now))
  }

  /** Closes the request row if it is still `started`; no row affected is an error. */
  function CloseRequest(r: Record, end: Terminal, now: Time): Option<Record> {
    if r.request.None? || !r.request.value.end.outcome.Started? then None
    else Some(r.(request := Some(r.request.value.(end := end, failovers := Failovers(r.attempts),
                                                  finished := Some(now)))))
  }

  function FinishNewest(r: Record, owner: OwnerId, key: KeyId, end: Terminal, bytesOut: Option<nat>,
                        now: Time): Option<Record> {
    match NewestOpen(r.attempts, key, owner)
    case None => None
    case Some(i) => Some(r.(attempts := r.attempts[i := CloseAttempt(r.attempts[i], end, bytesOut, now)]))
  }

  /** Closes every open attempt of the owner. */
  function CloseOpen(attempts: seq<AttemptRow>, owner: OwnerId, end: Terminal, bytes: nat,
                     now: Time): (s: seq<AttemptRow>)
    ensures |s| == |attempts|
    ensures forall i | 0 <= i < |s| ::
              s[i] == if Open(attempts[i]) && attempts[i].owner == Some(owner)
                      then CloseAttempt(attempts[i], end, Some(bytes), now) else attempts[i]
  {
    seq(|attempts|, i requires 0 <= i < |attempts| =>
      if Open(attempts[i]) && attempts[i].owner == Some(owner)
      then CloseAttempt(attempts[i], end, Some(bytes), now) else attempts[i])
  }

  predicate Expired(owner: Option<OwnerId>, expired: set<OwnerId>) {
    owner.Some? && owner.value in expired
  }

  function Orphan(owner: Option<OwnerId>, expired: set<OwnerId>): Option<OwnerId> {
    if Expired(owner, expired) then None else owner
  }

  /** The cleanup statement on one attempt, then ON DELETE SET NULL of its pruned owner. */
  function CleanAttempt(a: AttemptRow, expired: set<OwnerId>, now: Time): AttemptRow {
    var closed := if Open(a) && Expired(a.owner, expired)
                  then a.(end := a.end.(outcome := AbandonedAfterRestart), finished := Some(now)) else a;
    closed.(owner := Orphan(a.owner, expired))
  }

  function CleanRequest(q: RequestRow, attempts: seq<AttemptRow>, expired: set<OwnerId>, now: Time): RequestRow {
    var closed := if q.finished.None? && (q.owner.None? || Expired(q.owner, expired))
                  then q.(end := Terminal(AbandonedAfterRestart, q.end.status, Some(OwnerLeaseExpired)),
                          failovers := Failovers(attempts), finished := Some(now)) else q;
    closed.(owner := Orphan(q.owner, expired))
  }

  function CleanPermit(p: PermitRow, expired: set<OwnerId>, now: Time): PermitRow {
    var closed := if p.released.None? && (p.owner.None? || Expired(p.owner, expired))
                  then p.(released := Some(now)) else p;
    closed.(owner := Orphan(p.owner, expired))
  }

  /** The single transaction of `VaultStore::open` on this record; `expired` are
      the owners without a live lease. */
  function Cleaned(r: Record, expired: set<OwnerId>, now: Time): Record {
    Record(
      if r.request.None? then None else Some(CleanRequest(r.request.value, r.attempts, expired, now)),
      seq(|r.attempts|, i requires 0 <= i < |r.attempts| => CleanAttempt(r.attempts[i], expired, now)),
      if r.permit.None? then None else Some(CleanPermit(r.permit.value, expired, now)))
  }

  /** What a transaction of the process `owner` commits at time `now`. */
  function Effect(r: Record, tx: Transaction, owner: OwnerId, now: Time): Option<Record> {
    match tx
    case AcquirePermit =>
      if r.permit.Some? then None else Some(r.(permit := Some(PermitRow(Some(owner), None))))
    case ReleasePermit =>
      if r.permit.Some? && r.permit.value.released.None?
      then Some(r.(permit := Some(r.permit.value.(released := Some(now))))) else Some(r)
    case StartSelected(key) =>
      if r.request.Some? then None
      else if key.None? then
        Some(r.(request := Some(RequestRow(Some(owner), Terminal(Failed, Some(503), Some(NoEligibleUpstream)), 0,
                                           Some(now)))))
      else
        Some(r.(request := Some(RequestRow(Some(owner), STARTED, 0, None)),
                attempts := [AttemptRow(key.value, Some(owner), 1, STARTED, None, None)]))
    case StartAttempt(key) =>
      var number := MaxNumber(r.attempts) + 1;
      if r.request.None? || !r.request.value.end.outcome.Started? || number > MAX_ATTEMPTS then None
      else Some(r.(attempts := r.attempts + [AttemptRow(key, Some(owner), number, STARTED, None, None)]))
    case FinishAttempt(key, end, bytesOut) =>
      FinishNewest(r, owner, key, end, bytesOut, now)
    case FinishBoth(key, end, bytesOut, request) =>
      var closed := FinishNewest(r, owner, key, end, bytesOut, now);
      if closed.None? then None else CloseRequest(closed.value, request, now)
    case FinishOpen(end, bytes) =>
      CloseRequest(r.(attempts := CloseOpen(r.attempts, owner, end, bytes, now)), end, now)
    case RestartCleanup(expired) =>
      Some(Cleaned(r, expired, now))
    case ResponseStarted(key) => if NewestOpen(r.attempts, key, owner).None? then None else Some(r)
    case OtherTables => Some(r)
  }

  // ---- Invariant and history -----------------------------------------------

  /** The ledger's promise for one request: attempts are numbered from one, only
      the newest can be open, and none is open under a closed request. */
  predicate Consistent(r: Record) {
    && (r.request.None? ==> r.attempts == [])
    && (r.request.Some? ==> (r.request.value.finished.None? <==> r.request.value.end.outcome.Started?))
    && (forall i | 0 <= i < |r.attempts| ::
          r.attempts[i].number == i + 1 && (Open(r.attempts[i]) <==> r.attempts[i].end.outcome.Started?))
    && (forall i | 0 <= i < |r.attempts| && Open(r.attempts[i]) ::
          i == |r.attempts| - 1 && !Closed(r) && r.attempts[i].owner == r.request.value.owner)
    && (r.request.Some? && !Closed(r) ==> r.request.value.owner.Some?)
    && (Closed(r) ==> r.request.value.failovers == Failovers(r.attempts))
  }

  predicate NoneOpen(r: Record) {
    forall i | 0 <= i < |r.attempts| :: !Open(r.attempts[i])
  }

  /** How the gateway uses its transactions: a row is closed with a terminal
      outcome, a new attempt starts only after the previous one was closed, and
      a started request is only touched by the process that owns it. */
  predicate Disciplined(r: Record, tx: Transaction, owner: OwnerId) {
    && (match tx
        case StartAttempt(_) => NoneOpen(r)
        case FinishAttempt(_, end, _) => !end.outcome.Started?
        case FinishBoth(_, end, _, request) => !end.outcome.Started? && !request.outcome.Started?
        case FinishOpen(end, _) => !end.outcome.Started?
        case _ => true)
    && (!tx.RestartCleanup? && r.request.Some? && !Closed(r) ==> r.request.value.owner == Some(owner))
  }

  predicate FrozenAttempt(a: AttemptRow, b: AttemptRow) {
    a.key == b.key && a.number == b.number && (!Open(a) ==> b.(owner := a.owner) == a)
  }

  /** `b` may follow `a`: nothing disappears, a closed row never changes (a pruned
      owner aside), and a release time once set stays. */
  predicate Follows(a: Record, b: Record) {
    && (a.request.Some? ==> b.request.Some?)
    && (Closed(a) ==> b.request.value.(owner := a.request.value.owner) == a.request.value)
    && |a.attempts| <= |b.attempts|
    && (forall i | 0 <= i < |a.attempts| :: FrozenAttempt(a.attempts[i], b.attempts[i]))
    && (Closed(a) ==> |a.attempts| == |b.attempts|)
    && (a.permit.Some? ==> b.permit.Some?)
    && (a.permit.Some? && a.permit.value.released.Some? ==> b.permit.value.released == a.permit.value.released)
  }

  lemma MaxNumberOfNumbered(attempts: seq<AttemptRow>)
    requires forall i | 0 <= i < |attempts| :: attempts[i].number == i + 1
    ensures MaxNumber(attempts) == |attempts|
  {}

  lemma CleanupKeepsConsistency(r: Record, expired: set<OwnerId>, now: Time)
    requires Consistent(r)
    ensures Consistent(Cleaned(r, expired, now)) && Follows(r, Cleaned(r, expired, now))
  {
    var c := Cleaned(r, expired, now);
    if r.request.Some? {
      assert c.request.value == CleanRequest(r.request.value, r.attempts, expired, now);
    }
    forall i | 0 <= i < |c.attempts| && Open(c.attempts[i])
      ensures i == |c.attempts| - 1 && !Closed(c) && c.attempts[i].owner == c.request.value.owner
    {
      assert Open(r.attempts[i]) && c.attempts[i].owner == r.attempts[i].owner;
    }
  }

  lemma FinishBothKeepsConsistency(r: Record, key: KeyId, end: Terminal, bytesOut: Option<nat>, request: Terminal,
                                   owner: OwnerId, now: Time)
    requires Consistent(r) && !end.outcome.Started? && !request.outcome.Started?
    requires Effect(r, FinishBoth(key, end, bytesOut, request), owner, now).Some?
    ensures var after := Effect(r, FinishBoth(key, end, bytesOut, request), owner, now).value;
            Consistent(after) && Follows(r, after)
  {
    var i := NewestOpen(r.attempts, key, owner).value;
    var closed := FinishNewest(r, owner, key, end, bytesOut, now).value;
    assert forall j | 0 <= j < |r.attempts| && j != i :: closed.attempts[j] == r.attempts[j];
    assert NoneOpen(closed);
  }

  lemma FinishOpenKeepsConsistency(r: Record, end: Terminal, bytes: nat, owner: OwnerId, now: Time)
    requires Consistent(r) && Disciplined(r, FinishOpen(end, bytes), owner)
    requires Effect(r, FinishOpen(end, bytes), owner, now).Some?
    ensures var after := Effect(r, FinishOpen(end, bytes), owner, now).value;
            Consistent(after) && Follows(r, after) && NoneOpen(after) && Closed(after)
  {
    var closed := CloseOpen(r.attempts, owner, end, bytes, now);
    forall i | 0 <= i < |closed|
      ensures !Open(closed[i]) && closed[i].number == i + 1 && FrozenAttempt(r.attempts[i], closed[i])
              && !closed[i].end.outcome.Started?
    {
      assert closed[i] == if Open(r.attempts[i]) && r.attempts[i].owner == Some(owner)
                          then CloseAttempt(r.attempts[i], end, Some(bytes), now) else r.attempts[i];
    }
  }

  lemma StartAttemptKeepsConsistency(r: Record, key: KeyId, owner: OwnerId, now: Time)
    requires Consistent(r) && Disciplined(r, StartAttempt(key), owner)
    requires Effect(r, StartAttempt(key), owner, now).Some?
    ensures var after := Effect(r, StartAttempt(key), owner, now).value; Consistent(after) && Follows(r, after)
  {
    MaxNumberOfNumbered(r.attempts);
  }

  lemma FinishAttemptKeepsConsistency(r: Record, key: KeyId, end: Terminal, bytesOut: Option<nat>, owner: OwnerId,
                                      now: Time)
    requires Consistent(r) && !end.outcome.Started?
    requires FinishNewest(r, owner, key, end, bytesOut, now).Some?
    ensures var after := FinishNewest(r, owner, key, end, bytesOut, now).value; Consistent(after) && Follows(r, after)
  {}

  /** Every transaction that commits keeps the promise and rewrites no closed row. */
  lemma TransactionIsLawful(r: Record, tx: Transaction, owner: OwnerId, now: Time)
    requires Consistent(r) && Disciplined(r, tx, owner) && Effect(r, tx, owner, now).Some?
    ensures Consistent(Effect(r, tx, owner, now).value)
    ensures Follows(r, Effect(r, tx, owner, now).value)
  {
    hide FinishNewest, CloseOpen, Cleaned, MaxNumber;
    match tx
    case StartAttempt(key) =>
      StartAttemptKeepsConsistency(r, key, owner, now);
    case FinishAttempt(key, end, bytesOut) =>
      FinishAttemptKeepsConsistency(r, key, end, bytesOut, owner, now);
    case FinishBoth(key, end, bytesOut, request) =>
      FinishBothKeepsConsistency(r, key, end, bytesOut, request, owner, now);
    case FinishOpen(end, bytes) =>
      FinishOpenKeepsConsistency(r, end, bytes, owner, now);
    case RestartCleanup(expired) =>
      CleanupKeepsConsistency(r, expired, now);
    case _ =>
  }

  // ---- Runs -----------------------------------------------------------------

  /** One try of a transaction by some process; a refused one changes nothing. */
  datatype Step = Step(tx: Transaction, owner: OwnerId, now: Time, commits: bool)

  function Next(r: Record, s: Step): Record {
    var effect := Effect(r, s.tx, s.owner, s.now);
    if s.commits && effect.Some? then effect.value else r
  }

  /** The record after the first steps of a run that begins with no rows. */
  function After(steps: seq<Step>): Record {
    if steps == [] then EMPTY else Next(After(steps[..|steps| - 1]), steps[|steps| - 1])
  }

  ghost predicate DisciplinedRun(steps: seq<Step>) {
    forall i | 0 <= i < |steps| :: Disciplined(After(steps[..i]), steps[i].tx, steps[i].owner)
  }

  lemma FollowsIsTransitive(a: Record, b: Record, c: Record)
    requires Follows(a, b) && Follows(b, c)
    ensures Follows(a, c)
  {
    forall i | 0 <= i < |a.attempts| ensures FrozenAttempt(a.attempts[i], c.attempts[i]) {
      assert FrozenAttempt(a.attempts[i], b.attempts[i]) && FrozenAttempt(b.attempts[i], c.attempts[i]);
    }
  }

  lemma PrefixIsDisciplined(steps: seq<Step>, n: nat)
    requires DisciplinedRun(steps) && n <= |steps|
    ensures DisciplinedRun(steps[..n])
  {
    forall i | 0 <= i < n ensures Disciplined(After(steps[..n][..i]), steps[..n][i].tx, steps[..n][i].owner) {
      assert steps[..n][..i] == steps[..i];
    }
  }

  /** Whatever transactions run, commit or fail, and wherever cleanups fall
      between them, the ledger is consistent after every step and the rows only
      move forward. */
  lemma {:induction false} RunIsLawful(steps: seq<Step>, n: nat)
    requires DisciplinedRun(steps) && n <= |steps|
    ensures Consistent(After(steps))
    ensures Follows(After(steps[..n]), After(steps))
  {
    if n == |steps| {
      assert steps[..n] == steps;
      if steps != [] {
        RunIsLawful(steps, n - 1);
      }
    } else {
      var last := |steps| - 1;
      PrefixIsDisciplined(steps, last);
      assert steps[..last][..n] == steps[..n];
      RunIsLawful(steps[..last], n);
      var r := After(steps[..last]);
      if steps[last].commits && Effect(r, steps[last].tx, steps[last].owner, steps[last].now).Some? {
        TransactionIsLawful(r, steps[last].tx, steps[last].owner, steps[last].now);
        FollowsIsTransitive(After(steps[..n]), r, After(steps));
      }
    }
  }

  /** A request leaves `started` at most once: from the first moment it is closed
      no attempt is open, none is added, and the row keeps its values. */
  lemma ClosedRequestIsFinal(steps: seq<Step>, n: nat, m: nat)
    requires DisciplinedRun(steps) && n <= m <= |steps| && Closed(After(steps[..n]))
    ensures var first := After(steps[..n]); var later := After(steps[..m]);
            && NoneOpen(first) && NoneOpen(later) && Closed(later)
            && later.request.value.end == first.request.value.end
            && later.request.value.finished == first.request.value.finished
            && later.request.value.failovers == first.request.value.failovers
            && |later.attempts| == |first.attempts|
            && forall i | 0 <= i < |first.attempts| ::
                 later.attempts[i].(owner := first.attempts[i].owner) == first.attempts[i]
  {
    PrefixIsDisciplined(steps, n);
    PrefixIsDisciplined(steps, m);
    assert steps[..m][..n] == steps[..n];
    RunIsLawful(steps[..m], n);
    RunIsLawful(steps[..n], n);
    var first, later := After(steps[..n]), After(steps[..m]);
    forall i | 0 <= i < |first.attempts|
      ensures later.attempts[i].(owner := first.attempts[i].owner) == first.attempts[i]
    {
      assert FrozenAttempt(first.attempts[i], later.attempts[i]);
    }
  }

  /** Restart cleanup leaves nothing open for an owner without a live lease, and
      for live owners changes nothing. */
  lemma CleanupClosesExpired(r: Record, expired: set<OwnerId>, now: Time)
    requires Consistent(r)
    ensures var c := Cleaned(r, expired, now);
            && (forall i | 0 <= i < |c.attempts| && Open(c.attempts[i]) :: !Expired(r.attempts[i].owner, expired))
            && (c.request.Some? && !Closed(c) ==>
                  c.request.value.owner.Some? && !Expired(r.request.value.owner, expired))
            && (c.permit.Some? && c.permit.value.released.None? ==>
                  c.permit.value.owner.Some? && !Expired(r.permit.value.owner, expired))
            && (r.request.Some? && Expired(r.request.value.owner, expired) ==> Closed(c) && NoneOpen(c))
            && (r.permit.Some? && Expired(r.permit.value.owner, expired) ==> c.permit.value.released.Some?)
  {
    var c := Cleaned(r, expired, now);
    CleanupKeepsConsistency(r, expired, now);
    assert forall i | 0 <= i < |c.attempts| :: c.attempts[i] == CleanAttempt(r.attempts[i], expired, now);
  }

  /** What restart cleanup makes of a row of an owner without a lease: `a` before, `b` after. */
  predicate AbandonedAttempt(a: AttemptRow, b: AttemptRow, now: Time) {
    && b.key == a.key && b.number == a.number && b.bytesOut == a.bytesOut && b.owner.None?
    && if a.finished.None?
       then b.end == Terminal(AbandonedAfterRestart, a.end.status, a.end.error) && b.finished == Some(now)
       else b.end == a.end && b.finished == a.finished
  }

  predicate AbandonedRequest(a: RequestRow, b: RequestRow, now: Time) {
    && b.owner.None?
    && if a.finished.None?
       then b.end == Terminal(AbandonedAfterRestart, a.end.status, Some(OwnerLeaseExpired)) && b.finished == Some(now)
       else b.end == a.end && b.finished == a.finished && b.failovers == a.failovers
  }

  /** Rows of a dead owner that were open end as abandoned, with the status they had, at this
      time, and none keeps its owner; all others are left alone, but for requests and permits
      without any owner, which are closed likewise. */
  lemma CleanupMeans(r: Record, expired: set<OwnerId>, now: Time)
    ensures var c := Cleaned(r, expired, now);
            && |c.attempts| == |r.attempts| && (c.request.Some? <==> r.request.Some?)
            && (forall i | 0 <= i < |r.attempts| ::
                  if Expired(r.attempts[i].owner, expired) then AbandonedAttempt(r.attempts[i], c.attempts[i], now)
                  else c.attempts[i] == r.attempts[i])
            && (r.request.Some? ==>
                  if Expired(r.request.value.owner, expired) || r.request.value.owner.None?
                  then AbandonedRequest(r.request.value, c.request.value, now)
                  else c.request == r.request)
            && (r.permit.Some? ==>
                  && c.permit.Some?
                  && if Expired(r.permit.value.owner, expired) || r.permit.value.owner.None?
                     then c.permit.value.owner.None?
                          && c.permit.value.released
                             == Some(if r.permit.value.released.Some? then r.permit.value.released.value else now)
                     else c.permit == r.permit)
  {
    forall i | 0 <= i < |r.attempts|
      ensures Cleaned(r, expired, now).attempts[i] == CleanAttempt(r.attempts[i], expired, now)
    {}
  }

  lemma CleanupSparesLiveOwners(r: Record, expired: set<OwnerId>, now: Time)
    requires r.request.Some? ==> r.request.value.owner.Some? && r.request.value.owner.value !in expired
    requires r.permit.Some? ==> r.permit.value.owner.Some? && r.permit.value.owner.value !in expired
    requires forall i | 0 <= i < |r.attempts| :: !Expired(r.attempts[i].owner, expired)
    ensures Cleaned(r, expired, now) == r
  {
    var c := Cleaned(r, expired, now);
    assert forall i | 0 <= i < |r.attempts| :: c.attempts[i] == r.attempts[i];
    assert c.attempts == r.attempts;
  }
}
