/** Request evidence: who closes the ledger rows of one request, and who is
    responsible for its downstream permit, whatever fails or is dropped. */
module Evidence {
  import opened Common
  import opened Ledger

  /** What happens to one awaited transaction. */
  datatype Fate = Commits | Fails | AckLost | DropBefore | DropAfter

  /** One await of the process. `takenOver`: just before it the restart cleanup of
      another gateway takes this process for dead. */
  datatype Moment = Moment(fate: Fate, takenOver: bool)

  const SMOOTH := Moment(Commits, false)
  const UNHEARD := Moment(AckLost, false)

  /** The newest transaction did not commit as far as its caller could know. */
  ghost predicate LastFailed(store: Store)
    reads store
  {
    store.clock > 0 && !store.script(store.clock - 1).fate.Commits?
  }

  /** What the awaiting code sees; `Dropped`: the future was dropped here. */
  datatype Reply = Done | Refused | Dropped

  /** Inserting a row names the process, which must still be registered. */
  predicate Inserts(tx: Transaction) {
    tx.AcquirePermit? || tx.StartSelected? || tx.StartAttempt?
  }

  predicate TakesEffect(fate: Fate) {
    fate.Commits? || fate.AckLost? || fate.DropAfter?
  }

  predicate Drops(fate: Fate) {
    fate.DropBefore? || fate.DropAfter?
  }

  /** The insert is committed and its caller never learns of it. */
  predicate Unlearned(at: Moment) {
    !at.takenOver && (at.fate.AckLost? || at.fate.DropAfter?)
  }

  function Attempted(r: Record, leased: bool, tx: Transaction, owner: OwnerId, now: Time): Option<Record> {
    if Inserts(tx) && !leased then None else Effect(r, tx, owner, now)
  }

  /** The record the transaction finds. */
  function Found(r: Record, owner: OwnerId, now: Time, at: Moment): Record {
    if at.takenOver then Cleaned(r, {owner}, now) else r
  }

  /** What the transaction would leave if it took effect. */
  function Would(r: Record, leased: bool, tx: Transaction, owner: OwnerId, now: Time, at: Moment): Option<Record> {
    Attempted(Found(r, owner, now, at), leased && !at.takenOver, tx, owner, now)
  }

  /** The record after the await. */
  function Land(r: Record, leased: bool, tx: Transaction, owner: OwnerId, now: Time, at: Moment): Record {
    var effect := Would(r, leased, tx, owner, now, at);
    if TakesEffect(at.fate) && effect.Some? then effect.value else Found(r, owner, now, at)
  }

  function Answer(r: Record, leased: bool, tx: Transaction, owner: OwnerId, now: Time, at: Moment): Reply {
    match at.fate
    case DropBefore | DropAfter => Dropped
    case Commits => if Would(r, leased, tx, owner, now, at).Some? then Done else Refused
    case _ => Refused
  }

  predicate Held(r: Record) {
    r.permit.Some? && r.permit.value.released.None?
  }

  predicate InFlight(r: Record) {
    r.request.Some? && !Closed(r)
  }

  ghost predicate Lawful(steps: seq<Step>, r: Record) {
    DisciplinedRun(steps) && r == After(steps)
  }

  /** The steps of a run one await makes: the cleanup, if any, and the transaction. */
  function CleanupOf(owner: OwnerId, now: Time): Step {
    Step(RestartCleanup({owner}), owner, now, true)
  }

  function StepOf(r: Record, leased: bool, tx: Transaction, owner: OwnerId, now: Time, at: Moment): Step {
    Step(tx, owner, now, TakesEffect(at.fate) && Would(r, leased, tx, owner, now, at).Some?)
  }

  lemma LandIsNext(r: Record, leased: bool, tx: Transaction, owner: OwnerId, now: Time, at: Moment)
    ensures Next(r, CleanupOf(owner, now)) == Cleaned(r, {owner}, now)
    ensures Next(Found(r, owner, now, at), StepOf(r, leased, tx, owner, now, at)) == Land(r, leased, tx, owner, now, at)
  {
    hide FinishNewest, CloseOpen, CloseRequest, Cleaned, MaxNumber;
  }

  lemma LawfulStep(steps: seq<Step>, r: Record, s: Step)
    requires Lawful(steps, r) && Disciplined(r, s.tx, s.owner)
    ensures Lawful(steps + [s], Next(r, s))
    ensures Consistent(Next(r, s)) && Follows(r, Next(r, s))
  {
    var more := steps + [s];
    assert more[..|steps|] == steps;
    forall i | 0 <= i < |more| ensures Disciplined(After(more[..i]), more[i].tx, more[i].owner) {
      if i < |steps| {
        assert more[..i] == steps[..i];
      }
    }
    RunIsLawful(more, |steps|);
  }

  /** Rows that are not finished belong to this process, and none is left once it
      was taken for dead. */
  predicate Owned(r: Record, leased: bool, owner: OwnerId) {
    && (InFlight(r) ==> r.request.value.owner == Some(owner))
    && (Held(r) ==> r.permit.value.owner == Some(owner))
    && (!leased ==> !Held(r) && !InFlight(r))
  }

  /** The record a transaction finds is as good as the one its code last saw; after a
      cleanup nothing of it is left to finish. */
  lemma FoundIsSound(r: Record, leased: bool, tx: Transaction, owner: OwnerId, now: Time, at: Moment)
    requires Consistent(r) && Owned(r, leased, owner) && Disciplined(r, tx, owner) && !tx.RestartCleanup?
    ensures var found := Found(r, owner, now, at);
            && Consistent(found) && Owned(found, leased && !at.takenOver, owner) && Disciplined(found, tx, owner)
            && (Held(found) <==> Held(r) && !at.takenOver) && (InFlight(found) <==> InFlight(r) && !at.takenOver)
            && |found.attempts| == |r.attempts|
  {
    if at.takenOver {
      CleanupKeepsConsistency(r, {owner}, now);
      var c := Cleaned(r, {owner}, now);
      assert forall i | 0 <= i < |c.attempts| :: c.attempts[i] == CleanAttempt(r.attempts[i], {owner}, now);
    }
  }

  lemma EffectStaysOwned(r: Record, leased: bool, tx: Transaction, owner: OwnerId, now: Time)
    requires Consistent(r) && Owned(r, leased, owner)
    requires Attempted(r, leased, tx, owner, now).Some? && !tx.RestartCleanup?
    ensures var after := Attempted(r, leased, tx, owner, now).value;
            Owned(after, leased, owner) && (!tx.AcquirePermit? && Held(after) ==> Held(r))
  {
    hide Consistent;
    match tx
    case FinishBoth(_, _, _, _) =>
    case FinishOpen(_, _) =>
    case _ =>
  }

  lemma LandStaysOwned(r: Record, leased: bool, tx: Transaction, owner: OwnerId, now: Time, at: Moment)
    requires Consistent(r) && Owned(r, leased, owner) && Disciplined(r, tx, owner) && !tx.RestartCleanup?
    ensures var after := Land(r, leased, tx, owner, now, at);
            Owned(after, leased && !at.takenOver, owner) && (!tx.AcquirePermit? && Held(after) ==> Held(r))
  {
    hide Consistent, Effect, Disciplined, Cleaned;
    FoundIsSound(r, leased, tx, owner, now, at);
    if Would(r, leased, tx, owner, now, at).Some? {
      EffectStaysOwned(Found(r, owner, now, at), leased && !at.takenOver, tx, owner, now);
    }
  }

  lemma AcquireLands(leased: bool, owner: OwnerId, now: Time, at: Moment)
    ensures var after := Land(EMPTY, leased, Transaction.AcquirePermit, owner, now, at);
            var reply := Answer(EMPTY, leased, Transaction.AcquirePermit, owner, now, at);
            && after.request.None? && after.attempts == []
            && (Held(after) <==> leased && !at.takenOver && TakesEffect(at.fate))
            && (reply.Done? <==> leased && at == SMOOTH)
            && (!Held(after) ==> after == EMPTY)
  {
    assert Cleaned(EMPTY, {owner}, now) == EMPTY;
  }

  lemma StartSelectedLands(r: Record, leased: bool, selected: Option<KeyId>, owner: OwnerId, now: Time, at: Moment)
    requires r.attempts == [] && Owned(r, leased, owner)
    ensures var landed := Land(r, leased, StartSelected(selected), owner, now, at);
            && |landed.attempts| <= 1
            && (Answer(r, leased, StartSelected(selected), owner, now, at).Done? <==>
                  leased && at == SMOOTH && r.request.None?)
            && (r.request.None? ==>
                  (InFlight(landed) <==> leased && !at.takenOver && TakesEffect(at.fate) && selected.Some?))
  {}

  lemma ReleaseLands(r: Record, leased: bool, owner: OwnerId, now: Time, at: Moment)
    ensures var after := Land(r, leased, ReleasePermit, owner, now, at);
            var reply := Answer(r, leased, ReleasePermit, owner, now, at);
            && (reply.Done? <==> at.fate.Commits?) && (reply.Done? ==> !Held(after))
            && (reply.Dropped? <==> Drops(at.fate))
            && (after.request.Some? <==> r.request.Some?)
            && (!at.takenOver ==> after.request == r.request && after.attempts == r.attempts)
  {}

  lemma CleanupIsDisciplined(r: Record, owner: OwnerId, now: Time)
    ensures var s := CleanupOf(owner, now); Disciplined(r, s.tx, s.owner)
  {}

  lemma FollowsItself(r: Record)
    ensures Follows(r, r)
  {}

  /** The vault store of one gateway process, seen from one request: the request's
      rows, the process's lease, and its release retry task. The script decides
      what happens at every await. */
  class Store {
    const owner: OwnerId
    const script: nat -> Moment
    var clock: nat
    var record: Record
    var leased: bool
    var retrying: bool          // a spawned release retry that has not succeeded yet
    ghost var steps: seq<Step>  // every transaction tried so far, by anyone
    ghost var holder: object?   // the one party that will release the permit
    ghost var orphaned: bool    // the permit was committed but the caller never learned of it

    constructor (owner: OwnerId, script: nat -> Moment)
      ensures Valid() && this.owner == owner && this.script == script
      ensures record == EMPTY && leased && clock == 0 && holder == null && !orphaned
    {
      this.owner, this.script := owner, script;
      clock, record, leased, retrying := 0, EMPTY, true, false;
      steps, holder, orphaned := [], null, false;
    }

    /** The rows are what a disciplined run of transactions left. */
    ghost predicate Sound()
      reads this
    {
      && Lawful(steps, record) && Consistent(record)
      && Owned(record, leased, owner)
    }

    /** While the permit is held exactly one party is responsible for releasing
        it; nobody is exactly when the acquiring await lost the answer. */
    ghost predicate Accounted()
      reads this
    {
      && (retrying <==> holder == this)
      && (Held(record) ==> (holder != null <==> !orphaned))
      && (orphaned ==> holder == null)
    }

    ghost predicate Valid()
      reads this
    {
      Sound() && Accounted()
    }

    /** No await since then went wrong. */
    ghost predicate Smooth(since: nat)
      reads this
    {
      forall t | since <= t < clock :: script(t) == SMOOTH
    }

    /** No await since then was abandoned. */
    ghost predicate Undropped(since: nat)
      reads this
    {
      forall t | since <= t < clock :: !Drops(script(t).fate)
    }

    /** One awaited transaction. */
    method Transact(tx: Transaction) returns (reply: Reply)
      requires Sound() && Disciplined(record, tx, owner)
      requires !tx.RestartCleanup? && (!tx.AcquirePermit? ==> Accounted())
      modifies this`clock, this`record, this`leased, this`steps
      ensures Sound() && clock == old(clock) + 1
      ensures !tx.AcquirePermit? ==> Accounted()
      ensures record == Land(old(record), old(leased), tx, owner, old(clock), script(old(clock)))
      ensures reply == Answer(old(record), old(leased), tx, owner, old(clock), script(old(clock)))
      ensures Follows(old(record), record)
      ensures leased == (old(leased) && !script(old(clock)).takenOver)
    {
      hide Effect, Consistent, Follows, Lawful, Disciplined, Owned, Cleaned, Land, Answer, Next, Would;
      var at := script(clock);
      reply := Answer(record, leased, tx, owner, clock, at);
      ghost var found := Found(record, owner, clock, at);
      ghost var step := StepOf(record, leased, tx, owner, clock, at);
      LandStaysOwned(record, leased, tx, owner, clock, at);
      LandIsNext(record, leased, tx, owner, clock, at);
      FoundIsSound(record, leased, tx, owner, clock, at);
      FollowsItself(record);
      if at.takenOver {
        CleanupIsDisciplined(record, owner, clock);
        LawfulStep(steps, record, CleanupOf(owner, clock));
        steps := steps + [CleanupOf(owner, clock)];
      }
      LawfulStep(steps, found, step);
      steps := steps + [step];
      FollowsIsTransitive(record, found, Next(found, step));
      record := Land(record, leased, tx, owner, clock, at);
      leased := leased && !at.takenOver;
      clock := clock + 1;
    }

    /** `acquire_downstream_permit`. Requests without a credential take no permit,
        and the admission policy may turn one down. The permit is lost to its
        owner exactly when the insert commits but its answer never arrives. */
    method AcquirePermit(credential: bool, admitted: bool) returns (reply: Reply, acquired: bool)
      requires Valid() && record == EMPTY && holder == null && !orphaned
      modifies this`clock, this`record, this`leased, this`steps, this`orphaned
      ensures Sound() && holder == null && Follows(old(record), record)
      ensures record.request.None? && record.attempts == [] && (!Held(record) ==> record == EMPTY)
      ensures reply.Done? ==> acquired == credential
      ensures clock == old(clock) + if credential && admitted then 1 else 0
      ensures credential && admitted ==> (reply.Done? <==> old(leased) && script(old(clock)) == SMOOTH)
      ensures !credential ==> reply.Done? && leased == old(leased)
      ensures reply.Done? ==> leased == old(leased)
      ensures acquired ==> reply.Done? && Held(record) && !orphaned
      ensures !acquired ==> Accounted()
      ensures orphaned <==> credential && admitted && old(leased) && Unlearned(script(old(clock)))
      ensures orphaned ==> Held(record)
      ensures clock >= old(clock)
    {
      if !credential {
        return Done, false;
      }
      if !admitted {
        return Refused, false;
      }
      hide Consistent, Lawful, Land, Answer, Owned;
      AcquireLands(leased, owner, clock, script(clock));
      reply := Transact(Transaction.AcquirePermit);
      acquired := reply.Done?;
      orphaned := !acquired && Held(record);
    }

    /** The party that held the permit hands it to a spawned release task. */
    method SpawnRetry(ghost from: object)
      requires Valid() && holder == from && from != this
      modifies this`retrying, this`holder
      ensures Valid() && retrying && holder == this
    {
      retrying := true;
      holder := this;
    }

    /** The spawned task tries until a release commits; `tries` is how often before
        the process ends. One committed release within them is enough. */
    method RunRetry(tries: nat)
      requires Valid()
      modifies this`clock, this`record, this`leased, this`steps, this`retrying, this`holder
      ensures Valid() && Follows(old(record), record)
      ensures record.request.Some? <==> old(record).request.Some?
      ensures holder == if retrying then this else if old(retrying) then null else old(holder)
      ensures old(retrying) && !retrying ==> !Held(record)
      ensures old(retrying) ==>
                (!retrying <==> exists i | old(clock) <= i < old(clock) + tries :: script(i).fate.Commits?)
    {
      hide Consistent, Lawful, Land, Answer;
      var n := 0;
      FollowsItself(record);
      while n < tries && retrying
        invariant 0 <= n <= tries && Valid() && Follows(old(record), record)
        invariant record.request.Some? <==> old(record).request.Some?
        invariant old(retrying) ==> clock == old(clock) + n
        invariant !old(retrying) ==> n == 0 && !retrying && holder == old(holder)
        invariant old(retrying) && !retrying ==>
                    holder == null && !Held(record) && n > 0 && script(old(clock) + n - 1).fate.Commits?
        invariant retrying ==> forall i | old(clock) <= i < old(clock) + n :: !script(i).fate.Commits?
      {
        ghost var before := record;
        ReleaseLands(record, leased, owner, clock, script(clock));
        var reply := Transact(ReleasePermit);
        FollowsIsTransitive(old(record), before, record);
        if reply.Done? {
          retrying := false;
          holder := null;
        }
        n := n + 1;
      }
    }
  }

  /** Armed between the acquisition and the moment the request evidence exists. */
  class PermitReleaseGuard {
    const store: Store
    var armed: bool

    ghost predicate Valid()
      reads this, store
    {
      store.Valid() && (armed <==> store.holder == this)
    }

    constructor (store: Store, armed: bool)
      requires store.Sound() && store.holder == null
      requires if armed then !store.orphaned && !store.retrying else store.Accounted()
      modifies store`holder
      ensures Valid() && this.store == store && this.armed == armed
      ensures !armed ==> store.holder == null
    {
      this.store, this.armed := store, armed;
      new;
      if armed {
        store.holder := this;
      }
    }

    method Transfer(ghost heir: object) returns (was: bool)
      requires Valid() && heir != store && heir != this
      modifies this`armed, store`holder
      ensures Valid() && !armed && was == old(armed)
      ensures store.holder == if was then heir else old(store.holder)
    {
      was := armed;
      armed := false;
      if was {
        store.holder := heir;
      }
    }

    method Drop()
      requires Valid()
      modifies store`retrying, store`holder
      ensures store.Valid()
      ensures store.holder == if armed then store else old(store.holder)
    {
      if armed {
        store.SpawnRetry(this);
      }
    }
  }

  /** What `Drop` will write if nothing terminal was committed. */
  datatype DropRecovery = DropRecovery(end: Terminal, bytesOut: nat)

  const ABANDONED := DropRecovery(Terminal(Failed, None, Some(HandlerAbandoned)), 0)

  function EvidenceFailure(bytes: nat): DropRecovery {
    DropRecovery(Terminal(Failed, Some(500), Some(EvidenceUnavailable)), bytes)
  }

  /** What is armed while the final commit is awaited. */
  function FinalRecovery(bytesOut: Option<nat>, request: Terminal, silently: bool): DropRecovery {
    DropRecovery(Terminal(Failed, if silently then request.status else Some(500), Some(EvidenceUnavailable)),
                 if bytesOut.Some? then bytesOut.value else 0)
  }

  datatype Admission = Admitted(key: KeyId) | PolicyRefusal | NoUpstream | Unavailable | Abandoned

  predicate Concludes(tx: Transaction) {
    tx.FinishBoth? || tx.FinishOpen?
  }

  lemma ConcludingCloses(r: Record, leased: bool, tx: Transaction, owner: OwnerId, now: Time, at: Moment)
    requires Concludes(tx) && Disciplined(r, tx, owner) && Consistent(r)
    ensures Answer(r, leased, tx, owner, now, at).Done? ==>
              Closed(Land(r, leased, tx, owner, now, at))
              && Would(r, leased, tx, owner, now, at) == Some(Land(r, leased, tx, owner, now, at))
    ensures Answer(r, leased, tx, owner, now, at).Dropped? <==> Drops(at.fate)
  {
    hide Cleaned;
  }

  class RequestEvidence {
    const store: Store
    var terminal: bool
    var permitAcquired: bool
    var dropRecovery: DropRecovery

    ghost predicate Valid()
      reads this, store
    {
      && store.Valid() && store.record.request.Some?
      && (permitAcquired <==> store.holder == this)
      && (store.holder == null || store.holder == this || store.holder == store)
      && (terminal ==> Closed(store.record))
      && !dropRecovery.end.outcome.Started? && !dropRecovery.end.outcome.Succeeded?
    }

    constructor (guard: PermitReleaseGuard)
      requires guard.Valid() && guard.store.record.request.Some?
      requires !guard.armed ==> guard.store.holder == null || guard.store.holder == guard.store
      modifies guard`armed, guard.store`holder
      ensures Valid() && store == guard.store && !terminal && dropRecovery == ABANDONED
      ensures permitAcquired == old(guard.armed) && !guard.armed
      ensures !permitAcquired ==> store.holder == old(guard.store.holder)
    {
      store := guard.store;
      terminal := false;
      dropRecovery := ABANDONED;
      new;
      permitAcquired := guard.Transfer(this);
    }

    /** The rows of the request were committed and the answer never arrived: they stay
        open with no evidence value to close them. */
    static ghost predicate StartedUnheard(store: Store, since: nat, leased: bool, credential: bool, admitted: bool,
                                          selected: Option<KeyId>) {
      && leased && selected.Some? && (credential ==> admitted && store.script(since) == SMOOTH)
      && Unlearned(store.script(if credential then since + 1 else since))
    }

    /** The second half of the admission: the guard that may hold the permit goes away
        unless the evidence takes it over. */
    static method SelectAndStart(store: Store, guard: PermitReleaseGuard, selected: Option<KeyId>)
        returns (admission: Admission, evidence: RequestEvidence?)
      requires guard.Valid() && guard.store == store && store.record.request.None? && store.record.attempts == []
      requires !guard.armed ==> store.holder == null
      modifies guard`armed
      modifies store`clock, store`record, store`leased, store`steps, store`retrying, store`holder
      ensures store.Valid() && Consistent(store.record) && |store.record.attempts| <= 1
      ensures store.clock == old(store.clock) + 1
      ensures admission.Admitted? <==> evidence != null
      ensures evidence != null ==>
                && fresh(evidence) && evidence.store == store && evidence.Valid()
                && !evidence.terminal && evidence.dropRecovery == ABANDONED
                && InFlight(store.record) && selected == Some(admission.key)
                && store.record.attempts == [AttemptRow(admission.key, Some(store.owner), 1, STARTED, None, None)]
                && evidence.permitAcquired == old(guard.armed)
      ensures evidence == null ==> store.holder == null || store.holder == store
      ensures admission.NoUpstream? ==>
                && selected.None? && store.record.attempts == [] && Closed(store.record)
                && store.record.request.value.end == Terminal(Failed, Some(503), Some(NoEligibleUpstream))
      ensures !admission.PolicyRefusal?
      ensures if old(store.leased) && store.script(old(store.clock)) == SMOOTH then
                (if selected.Some? then admission.Admitted? else admission.NoUpstream?)
              else admission in {Unavailable, Abandoned}
      ensures evidence == null ==>
                (InFlight(store.record) <==>
                   old(store.leased) && selected.Some? && Unlearned(store.script(old(store.clock))))
      ensures evidence == null && InFlight(store.record) ==> LastFailed(store)
    {
      hide Consistent, Lawful, Cleaned, Owned;
      evidence := null;
      StartSelectedLands(store.record, store.leased, selected, store.owner, store.clock, store.script(store.clock));
      var reply := store.Transact(StartSelected(selected));
      if !reply.Done? {
        guard.Drop();
        return if reply.Dropped? then Abandoned else Unavailable, null;
      }
      if selected.None? {
        guard.Drop();
        return NoUpstream, null;
      }
      evidence := new RequestEvidence(guard);
      admission := Admitted(selected.value);
    }

    /** `admit_and_start_selected`: the permit, then the request row with its first
        attempt in one transaction. `selected` is what the selection query finds. */
    static method Admit(store: Store, credential: bool, admitted: bool, selected: Option<KeyId>)
        returns (admission: Admission, evidence: RequestEvidence?)
      requires store.Valid() && store.record == EMPTY && store.holder == null && !store.orphaned
      modifies store
      ensures store.Valid() && Consistent(store.record) && |store.record.attempts| <= 1
      ensures admission.Admitted? <==> evidence != null
      ensures evidence != null ==>
                && fresh(evidence) && evidence.store == store && evidence.Valid()
                && !evidence.terminal && evidence.dropRecovery == ABANDONED
                && InFlight(store.record) && selected == Some(admission.key)
                && store.record.attempts == [AttemptRow(admission.key, Some(store.owner), 1, STARTED, None, None)]
                && evidence.permitAcquired == credential
      ensures evidence == null ==> store.holder == null || store.holder == store
      ensures admission.NoUpstream? ==>
                && selected.None? && store.record.attempts == [] && Closed(store.record)
                && store.record.request.value.end == Terminal(Failed, Some(503), Some(NoEligibleUpstream))
      ensures old(store.leased) && store.Smooth(old(store.clock)) && (credential ==> admitted) ==>
                if selected.Some? then admission.Admitted? else admission.NoUpstream?
      ensures store.clock <= old(store.clock) + if credential then 2 else 1
      ensures admission.Admitted? ==>
                store.Smooth(old(store.clock)) && store.clock == old(store.clock) + if credential then 2 else 1
      ensures admission.PolicyRefusal? ==> credential && !admitted && store.record == EMPTY
      ensures store.orphaned <==>
                credential && admitted && old(store.leased) && Unlearned(store.script(old(store.clock)))
      ensures store.orphaned ==> Held(store.record) && admission in {Unavailable, Abandoned}
      ensures store.clock >= old(store.clock)
      ensures evidence == null ==>
                (InFlight(store.record) <==>
                   StartedUnheard(store, old(store.clock), old(store.leased), credential, admitted, selected))
      ensures evidence == null && InFlight(store.record) ==>
                LastFailed(store) && admission in {Unavailable, Abandoned}
    {
      hide Consistent, Lawful, Cleaned, Owned;
      evidence := null;
      if credential && !admitted {
        return PolicyRefusal, null;
      }
      var reply, acquired := store.AcquirePermit(credential, admitted);
      if !reply.Done? {
        return if reply.Dropped? then Abandoned else Unavailable, null;
      }
      var guard := new PermitReleaseGuard(store, acquired);
      admission, evidence := SelectAndStart(store, guard, selected);
    }

    /** The rows after an await that began at `now`, and what the awaiting code saw. */
    function Landed(r: Record, leased: bool, tx: Transaction, now: Time): Record {
      Land(r, leased, tx, store.owner, now, store.script(now))
    }

    function Answered(r: Record, leased: bool, tx: Transaction, now: Time): Reply {
      Answer(r, leased, tx, store.owner, now, store.script(now))
    }

    method ReleasePermitNow() returns (dropped: bool)
      requires Valid()
      modifies this`permitAcquired
      modifies store`clock, store`record, store`leased, store`steps, store`retrying, store`holder
      ensures Valid() && Follows(old(store.record), store.record)
      ensures dropped ==> old(permitAcquired) && !store.Undropped(old(store.clock))
      ensures store.clock >= old(store.clock)
      ensures permitAcquired == dropped
      ensures store.holder == if permitAcquired then this else if !old(permitAcquired) then old(store.holder)
                              else if store.retrying then store else null
    {
      hide Consistent, Lawful, Land, Answer;
      FollowsItself(store.record);
      if !permitAcquired {
        return false;
      }
      ReleaseLands(store.record, store.leased, store.owner, store.clock, store.script(store.clock));
      var reply := store.Transact(ReleasePermit);
      match reply {
        case Done =>
          store.holder := null;
          permitAcquired := false;
        case Refused =>
          store.SpawnRetry(this);
          permitAcquired := false;
        case Dropped =>
      }
      dropped := reply.Dropped?;
    }

    /** How a terminal transaction ends: nothing is rewritten after its commit, the
        evidence learns of the commit exactly when it was answered, and the permit is
        then released or handed to a retry task. */
    twostate predicate Concluded(tx: Transaction, reply: Reply)
      reads this, store
    {
      var landed := Landed(old(store.record), old(store.leased), tx, old(store.clock));
      var done := Answered(old(store.record), old(store.leased), tx, old(store.clock)).Done?;
      && Follows(old(store.record), store.record) && Follows(landed, store.record)
      && (terminal <==> old(terminal) || done)
      && (reply.Done? ==> done && !permitAcquired)
      && (reply.Refused? <==> Answered(old(store.record), old(store.leased), tx, old(store.clock)).Refused?)
      && (!done ==> store.record == landed && permitAcquired == old(permitAcquired))
      && store.clock > old(store.clock) && (reply.Dropped? ==> !store.Undropped(old(store.clock)))
      && (permitAcquired ==> !reply.Done? && old(permitAcquired))
      && (store.holder == if permitAcquired then this else if !old(permitAcquired) then old(store.holder)
                          else if store.retrying then store else null)
    }

    method Conclude(tx: Transaction) returns (reply: Reply)
      requires Valid() && Concludes(tx) && Disciplined(store.record, tx, store.owner)
      modifies this`terminal, this`permitAcquired
      modifies store`clock, store`record, store`leased, store`steps, store`retrying, store`holder
      ensures Valid() && Concluded(tx, reply)
    {
      hide Consistent, Lawful, Land, Answer, Owned, Attempted;
      ConcludingCloses(store.record, store.leased, tx, store.owner, store.clock, store.script(store.clock));
      ghost var before := store.record;
      reply := store.Transact(tx);
      FollowsItself(store.record);
      if reply.Done? {
        ghost var landed := store.record;
        terminal := true;
        var dropped := ReleasePermitNow();
        FollowsIsTransitive(before, landed, store.record);
        if dropped {
          reply := Dropped;
        }
      }
    }

    /** `finish_with_attempt` and its silent twin: the last attempt and the request
        close in one commit. */
    method FinishWithAttempt(key: KeyId, attempt: Terminal, bytesOut: Option<nat>, request: Terminal, silently: bool)
        returns (reply: Reply)
      requires Valid() && !attempt.outcome.Started? && !request.outcome.Started?
      modifies this`terminal, this`permitAcquired, this`dropRecovery
      modifies store`clock, store`record, store`leased, store`steps, store`retrying, store`holder
      ensures Valid() && Concluded(FinishBoth(key, attempt, bytesOut, request), reply)
      ensures dropRecovery == FinalRecovery(bytesOut, request, silently)
    {
      dropRecovery := FinalRecovery(bytesOut, request, silently);
      reply := Conclude(FinishBoth(key, attempt, bytesOut, request));
    }

    /** `finish_with_open_attempts_silently`. */
    method FinishWithOpenAttempts(end: Terminal, bytes: nat) returns (reply: Reply)
      requires Valid() && !end.outcome.Started? && !end.outcome.Succeeded?
      modifies this`terminal, this`permitAcquired, this`dropRecovery
      modifies store`clock, store`record, store`leased, store`steps, store`retrying, store`holder
      ensures Valid() && Concluded(FinishOpen(end, bytes), reply)
      ensures dropRecovery == DropRecovery(end, bytes)
    {
      dropRecovery := DropRecovery(end, bytes);
      reply := Conclude(FinishOpen(end, bytes));
    }

    /** Any other await between the start of the request and its end. */
    method Await(tx: Transaction) returns (reply: Reply)
      requires Valid() && Disciplined(store.record, tx, store.owner)
      requires tx.StartAttempt? || tx.FinishAttempt? || tx.ResponseStarted? || tx.OtherTables?
      modifies store`clock, store`record, store`leased, store`steps
      ensures Valid() && Follows(old(store.record), store.record) && store.clock == old(store.clock) + 1
      ensures store.record == Landed(old(store.record), old(store.leased), tx, old(store.clock))
      ensures reply == Answered(old(store.record), old(store.leased), tx, old(store.clock))
    {
      hide Consistent, Lawful, Land, Answer;
      reply := store.Transact(tx);
    }

    /** The value goes away: a spawned task closes what is still open with the armed
        recovery, then hands the permit to the retry loop. */
    method Drop()
      requires Valid()
      modifies store`clock, store`record, store`leased, store`steps, store`retrying, store`holder
      ensures store.Valid() && store.record.request.Some? && Follows(old(store.record), store.record)
      ensures !terminal ==>
                store.record == Landed(old(store.record), old(store.leased),
                                       FinishOpen(dropRecovery.end, dropRecovery.bytesOut), old(store.clock))
      ensures terminal ==> store.record == old(store.record)
      ensures store.clock == old(store.clock) + if terminal then 0 else 1
      ensures terminal || store.script(old(store.clock)).fate.Commits? ==>
                Closed(store.record) && NoneOpen(store.record)
      ensures store.holder == if permitAcquired then store else old(store.holder)
    {
      FollowsItself(store.record);
      if terminal && !permitAcquired {
        return;
      }
      if !terminal {
        if store.script(store.clock).fate.Commits? {
          RecoveryCloses(store.record, store.leased, dropRecovery, store.owner, store.clock, store.script(store.clock));
        }
        var _ := store.Transact(FinishOpen(dropRecovery.end, dropRecovery.bytesOut));
      }
      if permitAcquired {
        store.SpawnRetry(this);
      }
    }
  }

  /** A recovery that commits, or finds the request closed, leaves nothing open. */
  lemma RecoveryCloses(r: Record, leased: bool, recovery: DropRecovery, owner: OwnerId, now: Time, at: Moment)
    requires Consistent(r) && r.request.Some? && !recovery.end.outcome.Started? && at.fate.Commits?
    requires Owned(r, leased, owner)
    ensures var after := Land(r, leased, FinishOpen(recovery.end, recovery.bytesOut), owner, now, at);
            Closed(after) && NoneOpen(after)
  {
    hide Cleaned;
    FoundIsSound(r, leased, FinishOpen(recovery.end, recovery.bytesOut), owner, now, at);
    var found := Found(r, owner, now, at);
    FoundKeepsRequest(r, owner, now, at);
    if InFlight(found) {
      FinishOpenKeepsConsistency(found, recovery.end, recovery.bytesOut, owner, now);
    }
  }

  lemma FoundKeepsRequest(r: Record, owner: OwnerId, now: Time, at: Moment)
    ensures Found(r, owner, now, at).request.Some? <==> r.request.Some?
  {}

  /** A lost permit: the insert commits, its answer is lost, and no party is left to
      release the permit. */
  method LosePermit() returns (store: Store)
    ensures fresh(store) && store.Valid() && store.script(0) == UNHEARD
    ensures Held(store.record) && store.holder == null && !store.retrying
  {
    store := new Store(0, _ => UNHEARD);
    var admission, evidence := RequestEvidence.Admit(store, true, true, Some(0));
  }

  /** A lost start: the request and its attempt are in the ledger, and nothing is left in
      the process that would close them. */
  method LoseStart() returns (store: Store, admission: Admission)
    ensures fresh(store) && store.Valid() && store.script(0) == UNHEARD
    ensures InFlight(store.record) && admission in {Unavailable, Abandoned}
  {
    store := new Store(0, _ => UNHEARD);
    var evidence;
    admission, evidence := RequestEvidence.Admit(store, false, true, Some(0));
  }
}
