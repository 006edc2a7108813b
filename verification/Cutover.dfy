/** The Hermes cutover helper as it runs on the host: `apply`, the recovery of
    interrupted cutovers, backup retirement and the command loop.

    Each step asks the environment's script for its fate, so a statement about
    these methods is a statement about every pattern of failures and crashes. */
module Cutover {
  import opened Common
  import opened CutoverWorld
  import ConfigRewrite

  /** What happens to one step: it works, it fails without or with its effect, or
      the helper dies just before, within, or just after its effect. */
  datatype Fault = Smooth | FailBefore | FailAfter | CrashBefore | CrashWithin | CrashAfter

  datatype Outcome = Done | Failure | Crash

  /** What is looked at without changing anything. `Reading` stands for all the rest: files,
      lists and directories. */
  datatype Look = Health | Verification | SecretScan | DirectKeyScan | Preflight | Reading

  /** A look at the live pair and the container that found nothing wrong, and its time. */
  datatype Probe = Probe(at: nat, look: Look, env: EnvFile, config: string, up: bool)

  /** `v` differs from `w` at most in the live pair and the container. */
  predicate SameButLive(w: World, v: World) {
    v == w.(env := v.env, config := v.config, containerUp := v.containerUp)
  }

  /** Only the journal of `g`, and what its writes left behind, differs between two
      states of the backup directory. */
  predicate JournalMoved(before: Backups, after: Backups, g: Generation) {
    && g in before && g in after
    && after == before[g := before[g].(journal := after[g].journal, temps := after[g].temps)]
  }

  lemma JournalMovesCompose(a: Backups, b: Backups, c: Backups, g: Generation)
    requires JournalMoved(a, b, g) && JournalMoved(b, c, g)
    ensures JournalMoved(a, c, g)
  {}

  /** The generation is committed for `run`, and its receipt and journal name the candidate client. */
  predicate CommittedFor(w: World, g: Generation, id: ClientId, run: RunId) {
    w.last == Some(g) && StateOf(w.backups, w.retirements, g) == Some(Committed)
    && w.backups[g].journal.value.client == Some(id)
    && g in w.receipts && w.receipts[g].client == id && w.receipts[g].run == run && g in w.committed
    && w.committed[g] == run
  }

  lemma MovedToReady(w: World, v: World, g: Generation, id: ClientId)
    requires w.last == Some(g) && StateOf(w.backups, w.retirements, g) == Some(ClientOperationPrepared)
    requires ActiveClient(w.clients, id)
    requires v == w || v == JournalWritten(w, g, CandidateReady, Some(id)) || v == TempLeft(w, g)
    ensures v == w.(backups := v.backups) && JournalMoved(w.backups, v.backups, g) && RollbackTarget(v, g)
    ensures v == JournalWritten(w, g, CandidateReady, Some(id)) ==> CandidateOpen(v, g, id)
  {}

  lemma MovedToCleanup(w: World, v: World, g: Generation, id: ClientId)
    requires RolledBackPair(w, g)
    requires v == w || v == JournalWritten(w, g, RollbackCleanupPending, Some(id)) || v == TempLeft(w, g)
    ensures v == w.(backups := v.backups) && JournalMoved(w.backups, v.backups, g) && RolledBackPair(v, g)
  {}

  lemma MovedToCommitted(w: World, v: World, g: Generation, id: ClientId, run: RunId)
    requires CandidateOpen(w, g, id) && g in w.receipts && w.receipts[g].client == id && w.receipts[g].run == run
    requires v == w || v == JournalWritten(w, g, Committed, Some(id)) || v == TempLeft(w, g)
    ensures v == w.(backups := v.backups, committed := v.committed) && JournalMoved(w.backups, v.backups, g)
    ensures v == JournalWritten(w, g, Committed, Some(id)) ==>
              CommittedFor(v, g, id, run) && v.committed == w.committed[g := run]
  {}

  /** No active client is labelled after generation `g`. */
  ghost predicate CandidateGone(clients: Clients, g: Generation) {
    forall id | ActiveClient(clients, id) :: clients[id].name != HermesCutover(g)
  }

  /** After a cutover that failed: the live pair is as before, Hermes not left stopped, and the
      candidate has lost its authorization, unless no answer told of its issue. */
  ghost predicate Undone(w: World, v: World, g: Generation) {
    && v.env == w.env && v.config == w.config && (w.containerUp ==> v.containerUp)
    && var s := StateOf(v.backups, v.retirements, g);
       s.None? || s == Some(ClientOperationPrepared) || (s == Some(RolledBack) && CandidateGone(v.clients, g))
  }

  /** `v` differs from `w` at most in the staging directories. */
  predicate SameButStages(w: World, v: World) {
    v == w.(stages := v.stages)
  }

  /** `v` may differ from `w` only where a repair writes. */
  predicate Repairing(w: World, v: World) {
    v == w.(env := v.env, config := v.config, containerUp := v.containerUp, backups := v.backups,
            clients := v.clients, runs := v.runs) && v.backups.Keys == w.backups.Keys
  }

  /** Generation `g` was the unresolved one of `w` and has been resolved in `v`. */
  ghost predicate Repaired(w: World, v: World, g: Generation) {
    w.last == Some(g) && Unresolved(w, g) && g in v.backups && ResolvedAs(w, v, g)
    && NoneUnresolved(v.backups, v.retirements) && forall h | Unresolved(w, h) :: h == g
  }

  lemma RepairIsComplete(w: World, v: World, g: Generation)
    requires Safe(w) && Unresolved(w, g) && !Unresolved(v, g) && JournalMoved(w.backups, v.backups, g)
    requires v.retirements == w.retirements && ResolvedAs(w, v, g)
    ensures Repaired(w, v, g)
    ensures AllWhole(w.backups) ==> v.backups[g].journal.Some? ==> AllWhole(v.backups)
  {
    hide Safe, Grows, ResolvedAs;
    UnresolvedIsNewest(w, g);
    forall h | Unresolved(w, h)
      ensures h == g
    {
      UnresolvedIsNewest(w, h);
    }
    assert forall h | h in v.backups && h != g :: Unresolved(v, h) == Unresolved(w, h);
  }

  /** Nothing is left for a recovery to do. */
  ghost predicate Settled(w: World) {
    w.stages == map[] && NoneUnresolved(w.backups, w.retirements)
  }

  /** No backup generation has been left half retired. */
  ghost predicate AllWhole(backups: Backups) {
    forall g | g in backups :: SnapshotValid(backups[g], g) && backups[g].journal.Some?
  }

  /** What a completed recovery makes of a generation that was unresolved in `w`:
      the candidate if its journal had reached `committed`, the snapshot otherwise. */
  ghost predicate ResolvedAs(w: World, v: World, g: Generation)
    requires Unresolved(w, g) && g in v.backups
  {
    if PassPending(w.backups, w.retirements, g) then
      v.env == w.env && v.config == w.config && PassTold(v, g)
      && StateOf(v.backups, v.retirements, g) == Some(Reconciled)
    else
      SnapshotPair(v.env, v.config, w.backups[g]) && v.containerUp && CandidateGone(v.clients, g) && v.runs == w.runs
  }

  /** The generation is committed for `run` and the live pair is its candidate. */
  predicate Switched(w: World, g: Generation, run: RunId) {
    w.last == Some(g) && g in w.committed && w.committed[g] == run && g in w.receipts && g in w.backups
    && CandidatePair(w.env, w.config, w.backups[g], w.receipts[g].client)
  }

  /** How one `apply` ended; the error dispositions of the source, or a crash. */
  datatype Verdict = Applied | FailedBeforeCommit | CommittedReconcilePending | Died

  /** A run for which a generation may still be committed. */
  predicate Runnable(w: World, run: RunId) {
    run in w.runs && run !in w.committed.Values && run !in w.failedReports
  }

  datatype QaStatus = RunningRun | PassedRun | FailedRun | OtherRun
  datatype Intent = Start | RecoverOrConfirmCommitted
  datatype Decision = StartNow | Complete

  function StatusName(s: RunStatus): QaStatus {
    match s case Running => RunningRun case Passed(_) => PassedRun case Failed => FailedRun
  }

  /** `qa_run_intent`, read before the lock. */
  function QaRunIntent(status: QaStatus, matchingRecovery: bool): (r: Option<Intent>)
    ensures r == Some(Start) <==> status.RunningRun?
    ensures r == Some(RecoverOrConfirmCommitted) <==> (status.PassedRun? || status.FailedRun?) && matchingRecovery
  {
    match status
    case RunningRun => Some(Start)
    case PassedRun => if matchingRecovery then Some(RecoverOrConfirmCommitted) else None
    case FailedRun => if matchingRecovery then Some(RecoverOrConfirmCommitted) else None
    case OtherRun => None
  }

  /** `post_lock_qa_decision`, once the recovery has run under the lock. */
  function PostLockDecision(status: QaStatus, locallyReconciled: bool): (r: Option<Decision>)
    ensures r == Some(StartNow) <==> status.RunningRun?
    ensures r == Some(Complete) <==> status.PassedRun? && locallyReconciled
  {
    match status
    case RunningRun => Some(StartNow)
    case PassedRun => if locallyReconciled then Some(Complete) else None
    case _ => None
  }

  datatype Command =
    | ApplyCommand(run: RunId, statusBefore: QaStatus, matchBefore: bool)
    | PreflightCommand
    | RetireCommand(generation: Generation, providerRevoked: bool)
    | ArmCommand(run: RunId)
    | UpgradeCommand(build: Build)  // the helper binary is replaced

  /** Retiring `g` can be started or taken up again. */
  predicate Retirable(w: World, g: Generation) {
    StateOf(w.backups, w.retirements, g) == Some(Reconciled) || g in w.retirements
  }

  /** The receipt of `g` was written by this build of the helper. */
  predicate OwnReceipt(w: World, g: Generation, build: Build) {
    g in w.receipts && w.receipts[g].build == build
  }

  /** A recovery can succeed: every backup is whole, and a committed generation that is
      still to be reconciled was committed by this build. */
  ghost predicate CanRecover(w: World, build: Build) {
    && AllWhole(w.backups)
    && forall g | PassPending(w.backups, w.retirements, g) :: OwnReceipt(w, g, build)
  }

  /** A retirement can succeed: the receipt it starts from is of this build, and no
      interrupted journal write left its temporary file in the backup. */
  predicate CanRetire(w: World, g: Generation, build: Build) {
    && (if g in w.retirements then w.retirements[g].build == build
        else StateOf(w.backups, w.retirements, g) == Some(Reconciled) && OwnReceipt(w, g, build))
    && (g in w.backups ==> !w.backups[g].temps)
  }

  predicate ReconciledFor(w: World, g: Generation, run: RunId) {
    StateOf(w.backups, w.retirements, g) == Some(Reconciled) && g in w.receipts && w.receipts[g].run == run
  }

  lemma UnresolvedAreBackups(w: World)
    ensures forall g | Unresolved(w, g) :: g in w.backups
    ensures forall g | PassPending(w.backups, w.retirements, g) :: Unresolved(w, g)
  {}

  /** A generation that waits for its reconciliation is committed; one that was
      committed and is unresolved waits for it. */
  lemma PendingIsCommitted(w: World, g: Generation)
    requires Safe(w)
    ensures PassPending(w.backups, w.retirements, g) ==> g in w.committed
    ensures Unresolved(w, g) && g in w.committed ==> PassPending(w.backups, w.retirements, g)
    ensures g in w.backups && g !in w.retirements ==> SnapshotValid(w.backups[g], g) && w.backups[g].journal.Some?
  {
    if g in w.backups {
      assert SafeBackup(w.backups[g], g, g in w.retirements, w.last == Some(g), w.receipts, w.committed);
    }
    hide SafeNewest, SafeRuns, SafeClients, SafeRevocation;
  }

  /** Moving one journal leaves a recovery possible, if the generation it is of was
      committed, where it is, by this build. */
  lemma KeepsRecoverable(w: World, v: World, g: Generation, build: Build)
    requires Safe(v) && CanRecover(w, build) && g !in v.retirements && v.retirements == w.retirements
    requires JournalMoved(w.backups, v.backups, g)
    requires forall h | h != g && h in w.receipts :: h in v.receipts && v.receipts[h] == w.receipts[h]
    requires PassPending(v.backups, v.retirements, g) ==> OwnReceipt(v, g, build)
    ensures CanRecover(v, build)
  {
    hide Safe, SnapshotValid;
    PendingIsCommitted(v, g);
    forall h | h in v.backups ensures SnapshotValid(v.backups[h], h) && v.backups[h].journal.Some? {
      assert h != g ==> v.backups[h] == w.backups[h];
    }
    forall h | PassPending(v.backups, v.retirements, h) ensures OwnReceipt(v, h, build) {
      assert h != g ==> PassPending(w.backups, w.retirements, h);
    }
  }

  lemma RepairKeepsRecoverable(w: World, v: World, g: Generation, build: Build)
    requires Safe(w) && Safe(v) && Unresolved(w, g) && JournalMoved(w.backups, v.backups, g)
    requires v.retirements == w.retirements && v.receipts == w.receipts && v.committed == w.committed
    ensures CanRecover(w, build) ==> CanRecover(v, build)
  {
    hide Safe, SnapshotValid, JournalMoved;
    PendingIsCommitted(w, g);
    PendingIsCommitted(v, g);
    if CanRecover(w, build) {
      KeepsRecoverable(w, v, g, build);
    }
  }

  lemma WholeHasJournal(backups: Backups, g: Generation)
    ensures AllWhole(backups) && g in backups ==> backups[g].journal.Some?
  {}

  lemma JournalsWere(w: World, v: World, r: Generation, g: Generation)
    requires JournalMoved(w.backups, v.backups, r) && Repaired(w, v, r) && g in v.backups
    ensures g in w.backups && (v.backups[g].journal.Some? ==> w.backups[g].journal.Some?) && !Unresolved(v, g)
  {}

  lemma SwitchedIsConfirmed(w: World, g: Generation, run: RunId)
    requires Safe(w) && Switched(w, g, run) && StateOf(w.backups, w.retirements, g) == Some(Reconciled)
    ensures Confirmed(w, g, run)
  {
    ReconciledIsConfirmed(w, g);
  }

  lemma StillReconciled(w: World, v: World, runs: set<RunId>)
    requires v == w.(runs := v.runs) && forall r | r in runs :: exists g :: ReconciledFor(w, g, r)
    ensures forall r | r in runs :: exists g :: ReconciledFor(v, g, r)
  {
    forall r | r in runs ensures exists g :: ReconciledFor(v, g, r) {
      var g :| ReconciledFor(w, g, r);
      assert ReconciledFor(v, g, r);
    }
  }

  lemma PendingIsReconciledFor(w: World, v: World, g: Generation)
    requires Safe(w) && PassPending(w.backups, w.retirements, g) && Unresolved(w, g)
    requires g in v.backups && v.receipts == w.receipts && ResolvedAs(w, v, g)
    ensures g in v.receipts && ReconciledFor(v, g, v.receipts[g].run)
  {
    UnresolvedIsNewest(w, g);
    PendingGeneration(w, g);
  }

  /** A backup generation in one of these states. */
  predicate Accepts(w: World, g: Generation, accepted: set<JournalState>) {
    g in w.backups && w.backups[g].journal.Some? && w.backups[g].journal.value.state in accepted
  }

  const COMMITTED_STATES := {Committed, ReconcilePending, Reconciled}

  /** Nothing about the generation stops the search for the run's, which it is not. */
  predicate Passes(w: World, g: Generation, run: RunId, accepted: set<JournalState>, build: Build) {
    && g in w.backups && SnapshotValid(w.backups[g], g) && w.backups[g].journal.Some? && !w.backups[g].temps
    && (Accepts(w, g, accepted) ==> OwnReceipt(w, g, build) && w.receipts[g].run != run)
  }

  lemma AllPass(w: World, run: RunId, accepted: set<JournalState>, build: Build)
    requires forall g | g in w.backups :: Passes(w, g, run, accepted, build)
    ensures AllWhole(w.backups) && forall g | g in w.backups :: !w.backups[g].temps
    ensures Searched(w, run, accepted, build, false)
  {}

  lemma WholeStaysWhole(w: World, v: World, g: Generation, accepted: set<JournalState>, build: Build)
    requires SameButTemps(w, v) && g in v.backups
    ensures g in w.backups
    ensures AllWhole(w.backups) ==> SnapshotValid(v.backups[g], g) && v.backups[g].journal.Some?
    ensures Accepts(v, g, accepted) <==> Accepts(w, g, accepted)
    ensures OwnReceipt(v, g, build) <==> OwnReceipt(w, g, build)
  {}

  lemma TempsReflexive(w: World)
    ensures SameButTemps(w, w)
  {}

  /** Cleaning up after one generation spoils none that has passed. */
  lemma OthersPass(w: World, v: World, g: Generation, done: set<Generation>, run: RunId, accepted: set<JournalState>,
                   build: Build)
    requires g in w.backups && (v == w || v == TempsCleaned(w, g))
    requires forall h | h in done :: Passes(w, h, run, accepted, build)
    ensures forall h | h in done :: Passes(v, h, run, accepted, build)
    ensures v.backups.Keys == w.backups.Keys
    ensures forall u :: SameButTemps(u, w) ==> SameButTemps(u, v)
  {
    forall h | h in done ensures Passes(v, h, run, accepted, build) {
      assert Passes(w, h, run, accepted, build);
    }
  }

  /** The generation was worked on as this build does: only its journal and receipt may
      have changed, and once it is committed the receipt is of this build. */
  predicate Tended(w: World, v: World, g: Generation, build: Build) {
    && v.retirements == w.retirements && JournalMoved(w.backups, v.backups, g)
    && (forall h | h != g && h in w.receipts :: h in v.receipts && v.receipts[h] == w.receipts[h])
    && (g in v.committed ==> OwnReceipt(v, g, build))
  }

  lemma SameSnapshot(w: World, v: World, g: Generation)
    ensures v.env == w.env && v.config == w.config ==> SnapshotOf(v, g) == SnapshotOf(w, g)
  {}

  lemma ReceiptTends(w: World, g: Generation, r: Receipt)
    requires g in w.backups && g !in w.committed
    ensures Tended(w, w, g, r.build) && Tended(w, ReceiptWritten(w, g, r), g, r.build)
  {
    JournalStays(w.backups, g);
  }

  lemma CommitTends(w: World, written: World, v: World, g: Generation, build: Build)
    requires Tended(w, written, g, build) && OwnReceipt(written, g, build)
    requires v == written.(backups := v.backups, committed := v.committed)
    requires JournalMoved(written.backups, v.backups, g)
    ensures Tended(w, v, g, build)
  {}

  lemma TendingComposes(a: World, b: World, c: World, g: Generation, build: Build)
    requires Tended(a, b, g, build) && Tended(b, c, g, build)
    ensures Tended(a, c, g, build)
  {}

  lemma StillTended(w: World, v: World, g: Generation, build: Build)
    requires v.retirements == w.retirements && v.receipts == w.receipts && JournalMoved(w.backups, v.backups, g)
    requires v.committed == w.committed && g !in w.committed
    ensures Tended(w, v, g, build)
  {}

  lemma MovedKeepsFiles(before: Backups, after: Backups, g: Generation)
    requires JournalMoved(before, after, g)
    ensures g in before && g in after && after[g].env == before[g].env && after[g].config == before[g].config
  {}

  lemma PairIsOfFiles(env: EnvFile, config: string, d: Directory, e: Directory, id: ClientId)
    requires CandidatePair(env, config, d, id) && e.env == d.env && e.config == d.config
    ensures CandidatePair(env, config, e, id)
  {}

  lemma JournalStays(backups: Backups, g: Generation)
    requires g in backups
    ensures JournalMoved(backups, backups, g)
  {}

  lemma RunsDoNotMatter(w: World, v: World, build: Build)
    requires v.backups == w.backups && v.receipts == w.receipts && v.retirements == w.retirements
    ensures CanRecover(w, build) <==> CanRecover(v, build)
  {}

  lemma TempsKeepRecoverable(w: World, v: World, build: Build)
    requires SameButTemps(w, v)
    ensures CanRecover(w, build) ==> CanRecover(v, build)
  {
    forall h | PassPending(v.backups, v.retirements, h) ensures PassPending(w.backups, w.retirements, h) {
      assert h in v.backups <==> h in w.backups;
    }
  }

  lemma StillRunnable(w: World, v: World, run: RunId)
    requires v.runs == w.runs && v.committed == w.committed && v.failedReports == w.failedReports
    ensures Runnable(w, run) <==> Runnable(v, run)
    ensures Runnable(v, run) ==> run in v.runs && run !in v.committed.Values
  {}

  lemma TendedKeepsRow(w: World, v: World, g: Generation, build: Build)
    requires Tended(w, v, g, build)
    ensures g in w.backups && g in v.backups
  {}

  lemma TendingFacts(w: World, v: World, g: Generation, build: Build)
    requires Safe(v)
    ensures Tended(w, v, g, build) && g !in w.retirements ==>
              && (CanRecover(w, build) ==> CanRecover(v, build)) && v.retirements == w.retirements
              && v.backups - {g} == w.backups - {g}
              && (g in v.committed ==> OwnReceipt(v, g, build))
  {
    if Tended(w, v, g, build) && g !in w.retirements {
      TendingKeepsRecoverable(w, v, g, build);
    }
  }

  lemma TendingKeepsRecoverable(w: World, v: World, g: Generation, build: Build)
    requires Safe(v) && Tended(w, v, g, build) && g !in v.retirements
    ensures CanRecover(w, build) ==> CanRecover(v, build)
  {
    hide Safe, SnapshotValid, JournalMoved, OwnReceipt;
    PendingIsCommitted(v, g);
    if CanRecover(w, build) {
      KeepsRecoverable(w, v, g, build);
    }
  }

  lemma PublishKeepsRecoverable(w: World, v: World, g: Generation, build: Build)
    requires v.retirements == w.retirements && v.receipts == w.receipts
    requires v.backups == w.backups || (g !in w.backups && v.backups == w.backups[g := SnapshotOf(v, g)])
    ensures CanRecover(w, build) ==> CanRecover(v, build)
  {
    forall h | PassPending(v.backups, v.retirements, h) ensures PassPending(w.backups, w.retirements, h) {}
  }

  /** Every generation in one of these states has its receipt of this build. */
  ghost predicate AllOwn(w: World, accepted: set<JournalState>, build: Build) {
    forall g | Accepts(w, g, accepted) :: OwnReceipt(w, g, build)
  }

  /** What the search for the generation of a run saw where it was not stopped. */
  ghost predicate Searched(w: World, run: RunId, accepted: set<JournalState>, build: Build, found: bool) {
    if found then exists g :: Accepts(w, g, accepted) && OwnReceipt(w, g, build) && w.receipts[g].run == run
    else
      && AllWhole(w.backups) && AllOwn(w, accepted, build)
      && (forall g | g in w.backups :: !w.backups[g].temps)
      && (forall g | Accepts(w, g, accepted) && g in w.receipts :: w.receipts[g].run != run)
  }

  /** Nothing is to be recovered and the run waits for its cutover. */
  ghost predicate Waiting(w: World, run: RunId) {
    NoneUnresolved(w.backups, w.retirements) && run in w.runs && w.runs[run].Running?
  }

  /** Every backup is whole, every committed one of this build, and the configuration can
      be rewritten. */
  ghost predicate Startable(w: World, build: Build) {
    AllWhole(w.backups) && AllOwn(w, COMMITTED_STATES, build) && ConfigRewrite.UpdateYaml(w.config).Some?
  }

  /** Cleaning up changes none of this. */
  lemma WaitingStays(w: World, v: World, run: RunId, build: Build)
    requires SameButTemps(w, v)
    ensures Waiting(v, run) <==> Waiting(w, run)
    ensures AllWhole(v.backups) <==> AllWhole(w.backups)
    ensures AllOwn(v, COMMITTED_STATES, build) <==> AllOwn(w, COMMITTED_STATES, build)
  {
    hide PostCommit;
    forall g ensures Accepts(v, g, COMMITTED_STATES) <==> Accepts(w, g, COMMITTED_STATES) {
      assert g in v.backups <==> g in w.backups;
    }
    forall g | g in v.backups
      ensures UnresolvedIn(v.backups, v.retirements, g) == UnresolvedIn(w.backups, w.retirements, g)
    {}
  }

  /** The search finds no generation of a run that still waits, and does not get past one
      of another build. */
  lemma SearchTells(w: World, v: World, run: RunId, build: Build, found: bool)
    requires Safe(v) && SameButTemps(w, v) && Searched(v, run, COMMITTED_STATES, build, found)
    ensures Waiting(w, run) ==> AllWhole(w.backups) && AllOwn(w, COMMITTED_STATES, build)
    ensures (forall g | Accepts(w, g, COMMITTED_STATES) && g in w.receipts :: w.receipts[g].run != run) ==>
              !exists g :: Accepts(w, g, COMMITTED_STATES) && !OwnReceipt(w, g, build)
  {
    hide Safe, UnresolvedIn;
    WaitingStays(w, v, run, build);
    forall g ensures Accepts(v, g, COMMITTED_STATES) <==> Accepts(w, g, COMMITTED_STATES) {
      assert g in v.backups <==> g in w.backups;
    }
    if found {
      var g :| Accepts(v, g, COMMITTED_STATES) && OwnReceipt(v, g, build) && v.receipts[g].run == run;
      if Waiting(v, run) {
        AcceptedIsReconciled(v, g);
      }
    }
  }

  lemma NothingPending(w: World, build: Build)
    requires NoneUnresolved(w.backups, w.retirements)
    ensures AllWhole(w.backups) ==> CanRecover(w, build)
  {
    UnresolvedAreBackups(w);
  }

  lemma StillOwn(w: World, v: World, build: Build)
    requires v.backups == w.backups && v.receipts == w.receipts
    ensures AllOwn(w, {Reconciled}, build) ==> AllOwn(v, {Reconciled}, build)
  {
    forall g | Accepts(v, g, {Reconciled}) ensures Accepts(w, g, {Reconciled}) {}
  }

  lemma OwnIsOfFiles(w: World, v: World, build: Build)
    requires v.backups == w.backups && v.receipts == w.receipts
    ensures AllOwn(w, COMMITTED_STATES, build) ==> AllOwn(v, {Reconciled}, build)
  {
    forall g | Accepts(v, g, {Reconciled}) ensures Accepts(w, g, COMMITTED_STATES) {}
  }

  lemma LiveStays(a: World, b: World, c: World, g: Generation, id: ClientId)
    requires CandidateOpen(a, g, id) && (a == b || SameButLive(a, b)) && (b == c || SameButLive(b, c))
    ensures SameButLive(a, c) && c.backups == a.backups
    ensures CandidateOpen(c, g, id) && RollbackTarget(c, g) && g in c.backups
  {}

  lemma OpenIsUncommitted(w: World, g: Generation, id: ClientId)
    requires Safe(w) && CandidateOpen(w, g, id)
    ensures g !in w.committed
  {
    RestoreIsSafe(w, g, true);
  }

  lemma SnapshotIsPrepared(w: World, g: Generation)
    requires Safe(w) && g in w.backups && w.backups[g] == SnapshotOf(w, g) && g !in w.retirements
    ensures StateOf(w.backups, w.retirements, g) == Some(ClientOperationPrepared)
    ensures SnapshotPair(w.env, w.config, w.backups[g]) && g !in w.committed
  {
    hide Safe;
    UnresolvedIsWhole(w, g);
  }

  lemma CandidateStays(a: World, b: World, c: World, d: World, g: Generation, id: ClientId)
    requires CandidateOpen(a, g, id) && SameButLive(a, b)
    requires c == b.(backups := c.backups) && d == c.(containerUp := d.containerUp)
    ensures SameButLive(a.(backups := c.backups), c) && SameButLive(a.(backups := d.backups), d)
    ensures CandidateOpen(b, g, id) && (CandidateOpen(c, g, id) ==> RollbackTarget(c, g) && CandidateOpen(d, g, id))
  {}

  /** At most the entry of `g` differs in the backup directory, and no temporary file came or went. */
  predicate OnlyEntryOf(w: World, v: World, g: Generation) {
    && v == w.(backups := v.backups) && v.backups - {g} == w.backups - {g}
    && (g in v.backups ==> g in w.backups && v.backups[g].temps == w.backups[g].temps)
  }

  lemma EntryAtMost(w: World, v: World, g: Generation)
    ensures OnlyEntryOf(w, w, g)
    ensures OnlyEntryOf(w, v, g) ==>
              && v == w.(backups := v.backups) && v.backups - {g} == w.backups - {g}
              && (g in v.backups ==> g in w.backups && v.backups[g].temps == w.backups[g].temps)
  {}

  lemma EntriesCompose(a: World, b: World, c: World, g: Generation)
    requires OnlyEntryOf(a, b, g) && OnlyEntryOf(b, c, g)
    ensures OnlyEntryOf(a, c, g) && c.retirements == a.retirements && c.backups - {g} == a.backups - {g}
    ensures c == a.(backups := c.backups)
    ensures g in c.backups ==> g in a.backups && c.backups[g].temps == a.backups[g].temps
  {}

  lemma OtherMayBeRevoked(w: World, g: Generation, id: ClientId)
    requires Safe(w) && w.last == Some(g) && PassPending(w.backups, w.retirements, g) && g in w.receipts
    requires id != w.receipts[g].client && id in w.clients && w.clients[id].name.HermesCutover?
    ensures Safe(Revoked(w, id)) && Grows(w, Revoked(w, id))
  {
    hide Safe, Grows;
    PendingGeneration(w, g);
    RevokeIsSafe(w, id);
  }

  /** A snapshot that failed, published or not, left the live pair alone. */
  lemma NothingApplied(w: World, v: World, taken: World, g: Generation)
    requires g !in w.backups && v.env == w.env && v.config == w.config && v.containerUp == w.containerUp
    requires v.backups == w.backups || v.backups == w.backups[g := SnapshotOf(taken, g)]
    ensures Undone(w, v, g)
  {}

  lemma UndoneSince(w: World, taken: World, v: World, g: Generation)
    requires taken.env == w.env && taken.config == w.config && taken.containerUp == w.containerUp
    ensures Undone(taken, v, g) ==> Undone(w, v, g)
  {}

  lemma TimeOnlyEndsRuns(w: World, expired: set<RunId>, g: Generation)
    requires g in w.receipts && OthersRevoked(w, w.receipts[g].client)
    ensures TimedOut(w, expired) == w.(runs := TimedOut(w, expired).runs)
    ensures OthersRevoked(TimedOut(w, expired), w.receipts[g].client)
  {}

  lemma PassIsTold(w: World, expired: set<RunId>, g: Generation)
    requires g in w.committed
    ensures PassTold(PassReported(TimedOut(w, expired), w.committed[g], g), g)
    ensures PassReported(TimedOut(w, expired), w.committed[g], g)
            == w.(runs := PassReported(TimedOut(w, expired), w.committed[g], g).runs)
  {}

  lemma PendingHasReceipt(w: World, g: Generation)
    requires Safe(w) && w.last == Some(g) && PassPending(w.backups, w.retirements, g)
    ensures g in w.backups && g in w.receipts
  {
    hide Safe;
    PendingGeneration(w, g);
  }

  lemma RepairCommitsNothing(w: World, v: World)
    ensures Repairing(w, v.(stages := w.stages)) ==> v.committed == w.committed
  {}

  lemma TempsKeepConfig(w: World, v: World)
    ensures SameButTemps(w, v) ==> v.config == w.config && v.committed == w.committed
  {}

  lemma AcceptedIsReconciled(w: World, g: Generation)
    requires Safe(w) && NoneUnresolved(w.backups, w.retirements) && Accepts(w, g, COMMITTED_STATES)
    ensures w.backups[g].journal.value.state.Reconciled? && g in w.receipts && Confirmed(w, g, w.receipts[g].run)
  {
    assert !UnresolvedIn(w.backups, w.retirements, g);
    assert SafeBackup(w.backups[g], g, g in w.retirements, w.last == Some(g), w.receipts, w.committed);
    hide Safe;
    ReconciledIsConfirmed(w, g);
  }

  /** `v` differs from `w` at most in leftover temporary files. */
  predicate SameButTemps(w: World, v: World) {
    && v == w.(backups := v.backups) && v.backups.Keys == w.backups.Keys
    && forall g | g in w.backups :: v.backups[g] == w.backups[g].(temps := v.backups[g].temps)
  }

  /** The times of the looks that make up the trials of a candidate. */
  datatype Times = Times(keyScan: nat, healthy: nat, verified: nat, rehearsed: nat, healthyAgain: nat,
                         verifiedAgain: nat, secretScan: nat)

  /** This was seen on the candidate of the snapshot. */
  predicate SeenOnCandidate(probes: set<Probe>, at: nat, look: Look, up: bool, d: Directory, id: ClientId) {
    && d.env.Some? && d.config.Some? && ConfigRewrite.UpdateYaml(d.config.value).Some?
    && Probe(at, look, CandidateEnv(d.env.value, id), ConfigRewrite.UpdateYaml(d.config.value).value, up) in probes
  }

  lemma CandidateSeen(probes: set<Probe>, at: nat, look: Look, w: World, d: Directory, id: ClientId)
    requires CandidatePair(w.env, w.config, d, id) && Probe(at, look, w.env, w.config, w.containerUp) in probes
    ensures SeenOnCandidate(probes, at, look, w.containerUp, d, id)
  {}

  lemma SeenStays(p: set<Probe>, q: set<Probe>, at: nat, look: Look, up: bool, d: Directory, e: Directory, id: ClientId)
    requires p <= q && SeenOnCandidate(p, at, look, up, d, id) && e.env == d.env && e.config == d.config
    ensures SeenOnCandidate(q, at, look, up, e, id)
  {}

  /** Hermes was healthy on the snapshot itself. */
  predicate HealthyOnSnapshot(probes: set<Probe>, at: nat, d: Directory) {
    d.env.Some? && d.config.Some? && Probe(at, Health, d.env.value, d.config.value, true) in probes
  }

  /** The stopped candidate holds no direct key; started, it is healthy and verified. */
  predicate FirstTrialSeen(probes: set<Probe>, times: Times, from: nat, to: nat, d: Directory, id: ClientId) {
    && from <= times.keyScan < times.healthy < times.verified < to
    && SeenOnCandidate(probes, times.keyScan, DirectKeyScan, false, d, id)
    && SeenOnCandidate(probes, times.healthy, Health, true, d, id)
    && SeenOnCandidate(probes, times.verified, Verification, true, d, id)
  }

  /** The snapshot is healthy again; then the candidate is healthy and verified once more,
      and no secret is found anywhere. */
  predicate SecondTrialSeen(probes: set<Probe>, times: Times, from: nat, to: nat, d: Directory, id: ClientId) {
    && from <= times.rehearsed < times.healthyAgain < times.verifiedAgain < times.secretScan < to
    && HealthyOnSnapshot(probes, times.rehearsed, d)
    && SeenOnCandidate(probes, times.healthyAgain, Health, true, d, id)
    && SeenOnCandidate(probes, times.verifiedAgain, Verification, true, d, id)
    && SeenOnCandidate(probes, times.secretScan, SecretScan, true, d, id)
  }

  predicate Tried(probes: set<Probe>, times: Times, from: nat, to: nat, d: Directory, id: ClientId) {
    exists between | from <= between <= to ::
      FirstTrialSeen(probes, times, from, between, d, id) && SecondTrialSeen(probes, times, between, to, d, id)
  }

  lemma TriedFromEarlier(p: set<Probe>, q: set<Probe>, times: Times, start: nat, from: nat, to: nat, d: Directory,
                         e: Directory, id: ClientId)
    requires p <= q && start <= from && Tried(p, times, from, to, d, id) && d.env == e.env && d.config == e.config
    ensures Tried(q, times, start, to, e, id)
  {
    hide ConfigRewrite.UpdateYaml;
    var between :| from <= between <= to && FirstTrialSeen(p, times, from, between, d, id)
                   && SecondTrialSeen(p, times, between, to, d, id);
    assert FirstTrialSeen(q, times, start, between, e, id) && SecondTrialSeen(q, times, between, to, e, id);
  }

  lemma TriedUntilLater(p: set<Probe>, times: Times, from: nat, to: nat, later: nat, d: Directory, id: ClientId)
    requires to <= later && Tried(p, times, from, to, d, id)
    ensures Tried(p, times, from, later, d, id)
  {
    hide ConfigRewrite.UpdateYaml;
    var between :| from <= between <= to && FirstTrialSeen(p, times, from, between, d, id)
                   && SecondTrialSeen(p, times, between, to, d, id);
    assert FirstTrialSeen(p, times, from, between, d, id) && SecondTrialSeen(p, times, between, later, d, id);
  }

  /** Both trials, put together. */
  lemma TrialsJoin(p: set<Probe>, q: set<Probe>, a: Times, b: Times, from: nat, between: nat, to: nat, d: Directory,
                   e: Directory, id: ClientId)
    requires p <= q && from <= between <= to && d.env == e.env && d.config == e.config
    requires FirstTrialSeen(p, a, from, between, d, id) && SecondTrialSeen(q, b, between, to, e, id)
    ensures exists times :: Tried(q, times, from, to, e, id)
  {
    hide ConfigRewrite.UpdateYaml;
    var times := b.(keyScan := a.keyScan, healthy := a.healthy, verified := a.verified);
    assert FirstTrialSeen(q, times, from, between, e, id) && SecondTrialSeen(q, times, between, to, e, id);
    assert Tried(q, times, from, to, e, id);
  }

  class Helper {
    const script: nat -> Fault
    const timeouts: nat -> set<RunId>
    var build: Build
    var clock: nat
    var world: World
    ghost var seen: set<World>  // every world the host has been in
    ghost var probes: set<Probe>  // what was looked at and found good

    /** Every world the host has ever been in is safe, and nothing final in it was taken
        back since. */
    ghost predicate Valid()
      reads this
    {
      world in seen && forall s | s in seen :: Safe(s) && Grows(s, world)
    }

    /** Every step from `from` until `to` went well. */
    ghost predicate SmoothBetween(from: nat, to: nat) {
      forall u | from <= u < to :: script(u).Smooth?
    }

    /** Nothing went wrong but what made a cutover fail: one step, or none where the rewrite
        refuses the live config. */
    ghost predicate FailedOnce(from: nat, to: nat, config: string) {
      if ConfigRewrite.UpdateYaml(config).Some?
      then forall t, u | from <= t < u < to :: script(t).Smooth? || script(u).Smooth?
      else SmoothBetween(from, to)
    }

    lemma RestIsSmooth(from: nat, between: nat, to: nat, config: string)
      requires from <= between <= to
      ensures SmoothBetween(from, to) <==> SmoothBetween(from, between) && SmoothBetween(between, to)
      ensures FailedOnce(from, to, config) ==> FailedOnce(from, between, config) && FailedOnce(between, to, config)
      ensures FailedOnce(from, to, config) && !SmoothBetween(from, between) ==> SmoothBetween(between, to)
      ensures FailedOnce(from, to, config) && ConfigRewrite.UpdateYaml(config).None? ==> SmoothBetween(between, to)
    {
      hide ConfigRewrite.UpdateYaml;
    }

    /** Between these times everything went well and the candidate of this snapshot, with the
        token of this client, went through both trials and the rehearsal between them. */
    ghost predicate Proved(probes: set<Probe>, from: nat, to: nat, d: Directory, id: ClientId) {
      SmoothBetween(from, to) && exists times :: Tried(probes, times, from, to, d, id)
    }

    /** A commit tried at some time in between came after these trials, with no fault before it. */
    ghost predicate CommitProved(probes: set<Probe>, from: nat, to: nat, d: Directory, id: ClientId) {
      exists t | from <= t < to :: Proved(probes, from, t, d, id)
    }

    /** The trials were over at `proven`, and the commit itself was tried just before `to`. */
    lemma CommitIsProved(p: set<Probe>, q: set<Probe>, from: nat, proven: nat, to: nat, d: Directory, e: Directory,
                         id: ClientId)
      requires p <= q && from <= proven < to && Proved(p, from, proven, d, id) && SmoothBetween(proven, to - 1)
      requires d.env == e.env && d.config == e.config
      ensures CommitProved(q, from, to, e, id)
    {
      hide Tried;
      var times :| Tried(p, times, from, proven, d, id);
      TriedFromEarlier(p, q, times, from, from, proven, d, e, id);
      TriedUntilLater(q, times, from, proven, to - 1, e, id);
      assert Proved(q, from, to - 1, e, id);
    }

    /** A client issued for this generation went through the trials on its snapshot. */
    ghost predicate TriedFor(w: World, probes: set<Probe>, from: nat, to: nat, g: Generation) {
      g in w.backups
      && exists id | id in w.clients && w.clients[id].name == HermesCutover(g) ::
           CommitProved(probes, from, to, w.backups[g], id)
    }

    /** A client issued for this generation once went through the trials. */
    ghost predicate Tested(w: World, probes: set<Probe>, g: Generation) {
      exists id, d, from, to | id in w.clients && w.clients[id].name == HermesCutover(g) ::
        CommitProved(probes, from, to, d, id)
    }

    /** Whatever was committed between these worlds was tested before. */
    ghost predicate NewlyTested(before: World, w: World, probes: set<Probe>) {
      forall g | g in w.committed && g !in before.committed :: Tested(w, probes, g)
    }

    lemma TriedIsTested(before: World, w: World, probes: set<Probe>, from: nat, to: nat, g: Generation, run: RunId)
      requires w.committed == before.committed || w.committed == before.committed[g := run]
      requires g in w.committed ==> TriedFor(w, probes, from, to, g)
      ensures NewlyTested(before, w, probes)
    {
      hide CommitProved;
    }

    lemma TestedStays(a: World, b: World, c: World, p: set<Probe>, q: set<Probe>)
      requires NewlyTested(a, b, p) && NewlyTested(b, c, q) && Grows(b, c) && p <= q
      ensures NewlyTested(a, c, q)
    {
      hide CommitProved;
      forall g | g in c.committed && g !in a.committed ensures Tested(c, q, g) {
        if g in b.committed {
          var id, d, from, to :| id in b.clients && b.clients[id].name == HermesCutover(g)
                                 && CommitProved(p, from, to, d, id);
          ProvedFromEarlier(p, q, from, from, to, to, d, d, id);
          assert CommitProved(q, from, to, d, id);
        }
      }
    }

    lemma NothingNew(before: World, w: World, probes: set<Probe>)
      requires w.committed == before.committed
      ensures NewlyTested(before, w, probes)
    {}

    lemma IsTriedFor(w: World, probes: set<Probe>, from: nat, to: nat, g: Generation, id: ClientId)
      requires g in w.backups && id in w.clients && w.clients[id].name == HermesCutover(g)
      requires CommitProved(probes, from, to, w.backups[g], id)
      ensures TriedFor(w, probes, from, to, g)
    {}

    lemma TriedForStays(w: World, v: World, p: set<Probe>, q: set<Probe>, start: nat, from: nat, to: nat, later: nat,
                        g: Generation)
      requires TriedFor(w, p, from, to, g) && Grows(w, v) && p <= q && start <= from && to <= later
      requires SmoothBetween(start, from)
      requires g in v.backups && v.backups[g].env == w.backups[g].env && v.backups[g].config == w.backups[g].config
      ensures TriedFor(v, q, start, later, g)
    {
      hide CommitProved;
      var id :| id in w.clients && w.clients[id].name == HermesCutover(g)
                && CommitProved(p, from, to, w.backups[g], id);
      ProvedFromEarlier(p, q, start, from, to, later, w.backups[g], v.backups[g], id);
    }

    /** What was proved stays so, also seen from an earlier time when all went well since. */
    lemma ProvedFromEarlier(p: set<Probe>, q: set<Probe>, start: nat, from: nat, to: nat, later: nat, d: Directory,
                            e: Directory, id: ClientId)
      requires p <= q && start <= from && to <= later && SmoothBetween(start, from)
      requires d.env == e.env && d.config == e.config
      ensures CommitProved(p, from, to, d, id) ==> CommitProved(q, start, later, e, id)
    {
      hide Tried;
      if t :| from <= t < to && Proved(p, from, t, d, id) {
        var times :| Tried(p, times, from, t, d, id);
        TriedFromEarlier(p, q, times, start, from, t, d, e, id);
        assert Proved(q, start, t, e, id);
      }
    }

    /** A host before its first cutover: no generation, no Hermes client, Hermes running. */
    constructor (script: nat -> Fault, timeouts: nat -> set<RunId>, build: Build, env: EnvFile, config: string,
                 clients: Clients, nextClient: ClientId)
      requires TokenLive(clients, env)
      requires forall id | id in clients :: id < nextClient && !clients[id].name.HermesCutover?
      ensures Valid() && world.env == env && world.config == config && world.clients == clients
      ensures this.script == script && this.timeouts == timeouts && this.build == build
    {
      this.script, this.timeouts, this.build, clock := script, timeouts, build, 0;
      world := World(env, config, true, map[], map[], None, map[], map[], clients, map[], 0, nextClient, map[], {});
      new;
      seen, probes := {world}, {};
    }

    /** A host as an earlier helper left it. */
    constructor On(script: nat -> Fault, timeouts: nat -> set<RunId>, build: Build, world: World)
      requires Safe(world)
      ensures Valid() && this.world == world && this.script == script && this.build == build && clock == 0
    {
      this.script, this.timeouts, this.build, clock, this.world := script, timeouts, build, 0, world;
      new;
      seen, probes := {world}, {};
    }

    /** The host moves on to its next world. */
    method Become(next: World)
      requires Valid() && Safe(next) && Grows(world, next)
      modifies this`world, this`seen
      ensures Valid() && world == next && seen == old(seen) + {next}
    {
      hide Safe, Grows;
      forall s | s in seen ensures Grows(s, next) {
        GrowthComposes(s, world, next);
      }
      GrowsItself(next);
      hide Grows;
      world := next;
      seen := seen + {next};
    }

    /** One durable step: a file replacement, a remote call or a container command. */
    method Do(next: World) returns (o: Outcome)
      requires Valid() && Safe(next) && Grows(world, next)
      modifies this`clock, this`world, this`seen
      ensures Valid() && old(seen) <= seen && clock == old(clock) + 1
      ensures world == next || (world == old(world) && !o.Done?)
      ensures o.Failure? && !script(old(clock)).FailAfter? ==> world == old(world)
      ensures o.Done? <==> script(old(clock)).Smooth?
    {
      hide Safe, Grows;
      var fault := script(clock);
      clock := clock + 1;
      if fault.FailBefore? {
        return Failure;
      }
      if fault.CrashBefore? || fault.CrashWithin? {
        return Crash;
      }
      Become(next);
      o := match fault case Smooth => Done case FailAfter => Failure case _ => Crash;
    }

    /** An atomic file replacement that is not reported as failed once it took place. */
    method DoAtomic(next: World) returns (o: Outcome)
      requires Valid() && Safe(next) && Grows(world, next)
      modifies this`clock, this`world, this`seen
      ensures Valid() && old(seen) <= seen && clock == old(clock) + 1
      ensures world == next || (world == old(world) && !o.Done?)
      ensures o.Failure? ==> world == old(world)
      ensures o.Done? <==> script(old(clock)).Smooth?
    {
      hide Safe, Grows;
      var fault := script(clock);
      if fault.FailAfter? {
        clock := clock + 1;
        return Failure;
      }
      o := Do(next);
    }

    /** A step that changes nothing durable: a read, a health check, a directory sync. */
    method Check(look: Look) returns (o: Outcome)
      requires Valid()
      modifies this`clock, this`probes
      ensures Valid() && clock == old(clock) + 1
      ensures o.Done? <==> script(old(clock)).Smooth?
      ensures probes ==
                if o.Done? then old(probes) + {Probe(old(clock), look, world.env, world.config, world.containerUp)}
                else old(probes)
    {
      hide Safe, Grows;
      var fault := script(clock);
      o := match fault
        case Smooth => Done
        case FailBefore => Failure
        case FailAfter => Failure
        case _ => Crash;
      if o.Done? {
        probes := probes + {Probe(clock, look, world.env, world.config, world.containerUp)};
      }
      clock := clock + 1;
    }

    /** QA runs that outlive their deadline are failed by the server. */
    method Elapse()
      requires Valid()
      modifies this`world, this`seen
      ensures Valid() && old(seen) <= seen
      ensures world == TimedOut(old(world), timeouts(clock))
    {
      hide Safe, Grows;
      TimeoutIsSafe(world, timeouts(clock));
      Become(TimedOut(world, timeouts(clock)));
    }

    // ---- Snapshots ---------------------------------------------------------

    /** `cleanup_snapshot_stage`: the files go in any order, then the directory. */
    method CleanupStage(g: Generation) returns (o: Outcome)
      requires Valid() && g in world.stages
      modifies this`clock, this`world, this`seen, this`probes
      ensures Valid() && old(seen) <= seen && old(clock) <= clock && old(probes) <= probes
      ensures world == old(world).(stages := world.stages)
      ensures o.Done? ==> world.stages == old(world).stages - {g}
      ensures o.Done? <==> SmoothBetween(old(clock), clock)
    {
      hide Safe, Grows, Directory.Has, Directory.Without;
      var present := set f: FileName | world.stages[g].Has(f);
      while present != {}
        invariant Valid() && old(seen) <= seen && old(clock) <= clock && old(probes) <= probes && g in world.stages
        invariant SmoothBetween(old(clock), clock)
        invariant world == old(world).(stages := world.stages)
        invariant world.stages - {g} == old(world).stages - {g}
        decreases present
      {
        var f :| f in present;
        o := StageFile(g, world.stages[g].Without(f));
        if !o.Done? {
          return;
        }
        present := present - {f};
      }
      o := DropStage(g);
    }

    method DropStage(g: Generation) returns (o: Outcome)
      requires Valid() && g in world.stages
      modifies this`clock, this`world, this`seen, this`probes
      ensures Valid() && old(seen) <= seen && old(clock) <= clock && old(probes) <= probes
      ensures world == old(world) || world == old(world).(stages := old(world).stages - {g})
      ensures o.Done? ==> world.stages == old(world).stages - {g}
      ensures o.Done? <==> SmoothBetween(old(clock), clock)
    {
      hide Safe, Grows;
      UnstagingIsSafe(world, g);
      o := Do(world.(stages := world.stages - {g}));
      if !o.Done? {
        return;
      }
      o := Check(Reading);
    }

    /** `snapshot`: a complete directory is staged, then published by one rename. */
    method Snapshot() returns (o: Outcome, g: Generation)
      requires Valid() && NoneUnresolved(world.backups, world.retirements)
      modifies this`clock, this`world, this`seen, this`probes
      ensures Valid() && old(seen) <= seen && old(clock) <= clock && old(probes) <= probes
      ensures world == old(world).(stages := world.stages, backups := world.backups, last := world.last,
                                   nextGeneration := world.nextGeneration)
      ensures o.Done? ==> world.last == Some(g) && world.backups == old(world).backups[g := SnapshotOf(world, g)]
      ensures g !in old(world).backups
      ensures g !in world.committed
      ensures o.Done? ==> g !in world.retirements && g < world.nextGeneration
      ensures o.Done? ==> forall id | id in world.clients :: world.clients[id].name != HermesCutover(g)
      ensures world.backups == old(world).backups || world.backups == old(world).backups[g := SnapshotOf(world, g)]
      ensures o.Done? <==> SmoothBetween(old(clock), clock)
    {
      hide Safe, Grows, SnapshotOf, NoneUnresolved, Valid;
      o, g := CreateStage();
      if o.Done? {
        o := StageOrCleanUp(g);
      }
    }

    /** What could not be published is removed again. */
    method StageOrCleanUp(g: Generation) returns (o: Outcome)
      requires Valid() && NoneUnresolved(world.backups, world.retirements)
      requires g in world.stages && g !in world.committed && g !in world.retirements
      requires forall id | id in world.clients :: world.clients[id].name != HermesCutover(g)
      modifies this`clock, this`world, this`seen, this`probes
      ensures Valid() && old(seen) <= seen && old(clock) <= clock && old(probes) <= probes
      ensures world == old(world).(stages := world.stages, backups := world.backups, last := world.last)
      ensures o.Done? ==> world.last == Some(g) && world.backups == old(world).backups[g := SnapshotOf(world, g)]
      ensures world.backups == old(world).backups || world.backups == old(world).backups[g := SnapshotOf(world, g)]
      ensures o.Done? <==> SmoothBetween(old(clock), clock)
    {
      hide Safe, Grows, SnapshotOf, NoneUnresolved, Valid;
      o := StageAndPublish(g);
      if o.Failure? && g in world.stages {
        ghost var staged := world;
        var cleanup := CleanupStage(g);
        SameSnapshot(staged, world, g);
        o := if cleanup.Crash? then Crash else Failure;
      }
    }

    /** The empty staging directory of a generation nothing is known of yet. */
    method CreateStage() returns (o: Outcome, g: Generation)
      requires Valid()
      modifies this`clock, this`world, this`seen, this`probes
      ensures Valid() && old(seen) <= seen && old(clock) <= clock && old(probes) <= probes
      ensures world == old(world).(stages := world.stages, nextGeneration := world.nextGeneration)
      ensures g !in world.backups && g !in world.retirements && g !in world.committed
      ensures o.Done? ==> g in world.stages && g < world.nextGeneration
      ensures forall id | id in world.clients :: world.clients[id].name != HermesCutover(g)
      ensures o.Done? <==> SmoothBetween(old(clock), clock)
    {
      hide Safe, Grows;
      g := world.nextGeneration;
      NextGenerationIsFresh(world);
      StageCreationIsSafe(world);
      o := Do(StageCreated(world));
    }

    /** One file written into the staging directory, or removed from it. */
    method StageFile(g: Generation, d: Directory) returns (o: Outcome)
      requires Valid() && g in world.stages
      modifies this`clock, this`world, this`seen, this`probes
      ensures Valid() && old(seen) <= seen && old(clock) <= clock && old(probes) <= probes
      ensures world == old(world).(stages := world.stages) && g in world.stages
      ensures world.stages - {g} == old(world).stages - {g}
      ensures o.Done? ==> world.stages[g] == d
      ensures o.Done? <==> SmoothBetween(old(clock), clock)
    {
      hide Safe, Grows;
      StagingIsSafe(world, g, d);
      o := Do(Staged(world, g, d));
    }

    method StageAndPublish(g: Generation) returns (o: Outcome)
      requires Valid() && NoneUnresolved(world.backups, world.retirements)
      requires g in world.stages && g !in world.committed && g !in world.retirements
      requires forall id | id in world.clients :: world.clients[id].name != HermesCutover(g)
      modifies this`clock, this`world, this`seen, this`probes
      ensures Valid() && old(seen) <= seen && old(clock) <= clock && old(probes) <= probes
      ensures world == old(world).(stages := world.stages, backups := world.backups, last := world.last)
      ensures o.Done? ==> world.last == Some(g) && world.backups == old(world).backups[g := SnapshotOf(world, g)]
      ensures world.backups == old(world).backups
              || (g !in old(world).backups && world.backups == old(world).backups[g := SnapshotOf(world, g)])
      ensures o.Done? <==> SmoothBetween(old(clock), clock)
    {
      hide Safe, Grows;
      var complete := SnapshotOf(world, g);
      var d := EMPTY_DIRECTORY.(env := complete.env);
      o := StageFile(g, d);
      if !o.Done? { return; }
      d := d.(config := complete.config);
      o := StageFile(g, d);
      if !o.Done? { return; }
      d := d.(manifest := complete.manifest);
      o := StageFile(g, d);
      if !o.Done? { return; }
      d := d.(journal := complete.journal);
      o := StageFile(g, d);
      if !o.Done? { return; }
      o := Publish(g);
    }

    method Publish(g: Generation) returns (o: Outcome)
      requires Valid() && NoneUnresolved(world.backups, world.retirements)
      requires g in world.stages && world.stages[g] == SnapshotOf(world, g)
      requires g !in world.committed && g !in world.retirements
      requires forall id | id in world.clients :: world.clients[id].name != HermesCutover(g)
      modifies this`clock, this`world, this`seen, this`probes
      ensures Valid() && old(seen) <= seen && old(clock) <= clock && old(probes) <= probes
      ensures world == old(world).(stages := world.stages, backups := world.backups, last := world.last)
      ensures o.Done? ==> world.last == Some(g) && world.backups == old(world).backups[g := SnapshotOf(world, g)]
      ensures world.backups == old(world).backups
              || (g !in old(world).backups && world.backups == old(world).backups[g := SnapshotOf(world, g)])
      ensures o.Done? <==> SmoothBetween(old(clock), clock)
    {
      hide Safe, Grows;
      o := Check(Reading);
      if !o.Done? { return; }
      StagesAreNoBackups(world);
      PublishIsSafe(world, g);
      o := Do(Published(world, g));
      if !o.Done? { return; }
      o := Check(Reading);
    }

    // ---- Rolling back ------------------------------------------------------

    /** `rollback_after_failure`: the stop is attempted, its result ignored. */
    method RollbackAfterFailure(g: Generation) returns (o: Outcome)
      requires Valid() && RollbackTarget(world, g)
      modifies this`clock, this`world, this`seen, this`probes
      ensures Valid() && old(seen) <= seen && old(clock) <= clock && old(probes) <= probes
      ensures world == old(world).(env := world.env, config := world.config, containerUp := world.containerUp)
      ensures o.Done? ==> SnapshotPair(world.env, world.config, world.backups[g]) && world.containerUp
      ensures o.Done? ==> clock > 0 && Probe(clock - 1, Health, world.env, world.config, true) in probes
      ensures SmoothBetween(old(clock), clock) ==> o.Done?
    {
      hide Safe, Grows;
      RestoreIsSafe(world, g, false);
      o := Do(world.(containerUp := false));
      if o.Crash? { return; }
      o := RestoreSnapshot(g);
      if !o.Done? { return; }
      RestoreIsSafe(world, g, true);
      o := Do(world.(containerUp := true));
      if !o.Done? { return; }
      o := Check(Health);
      if o.Failure? {
        RestoreIsSafe(world, g, false);
        var stopped := Do(world.(containerUp := false));
        o := if stopped.Crash? then Crash else Failure;
      }
    }

    /** `restore_snapshot`, after the manifest of the snapshot has been verified. */
    method RestoreSnapshot(g: Generation) returns (o: Outcome)
      requires Valid() && RollbackTarget(world, g)
      modifies this`clock, this`world, this`seen, this`probes
      ensures Valid() && old(seen) <= seen && old(clock) <= clock && old(probes) <= probes
      ensures world == old(world).(env := world.env, config := world.config)
      ensures o.Done? ==> SnapshotPair(world.env, world.config, world.backups[g])
      ensures o.Done? <==> SmoothBetween(old(clock), clock)
    {
      hide Safe, Grows;
      RestoreIsSafe(world, g, world.containerUp);
      o := Check(Reading);
      if !o.Done? { return; }
      o := Do(world.(env := world.backups[g].env.value));
      if !o.Done? { return; }
      RestoreIsSafe(world, g, world.containerUp);
      o := Do(world.(config := world.backups[g].config.value));
    }

    // ---- Journal, clients and QA reports -----------------------------------

    /** Dying before the rename leaves the temporary file. */
    method WriteJournal(g: Generation, state: JournalState, client: Option<ClientId>) returns (o: Outcome)
      requires Valid() && JournalReady(world, g, state, client)
      modifies this`clock, this`world, this`seen, this`probes
      ensures Valid() && old(seen) <= seen && clock == old(clock) + 1 && old(probes) <= probes
      ensures world == old(world) || world == JournalWritten(old(world), g, state, client)
              || (o.Crash? && world == TempLeft(old(world), g))
      ensures o.Done? ==> world == JournalWritten(old(world), g, state, client)
      ensures state.Committed? && o.Failure? ==> world == old(world)
      ensures o.Done? <==> SmoothBetween(old(clock), clock)
    {
      hide Safe, Grows, SafePair;
      JournalIsSafe(world, g, state, client);
      if script(clock).CrashWithin? {
        TempsAreSafe(world, g, true);
        Become(TempLeft(world, g));
        clock := clock + 1;
        return Crash;
      }
      if state.Committed? {
        o := DoAtomic(JournalWritten(world, g, state, client));
      } else {
        o := Do(JournalWritten(world, g, state, client));
      }
    }

    /** `report_failed_hermes_run`: the server accepts it only for a running run. */
    method ReportFailed(run: RunId) returns (o: Outcome)
      requires Valid() && run in world.runs && run !in world.committed.Values
      modifies this`clock, this`world, this`seen, this`probes
      ensures Valid() && old(seen) <= seen && old(clock) <= clock && old(probes) <= probes
      ensures world == old(world).(runs := world.runs, failedReports := world.failedReports)
      ensures world.runs.Keys == old(world).runs.Keys
      ensures SmoothBetween(old(clock), clock) ==> !o.Crash? && !world.runs[run].Running?
    {
      hide Safe, Grows;
      Elapse();
      if !world.runs[run].Running? {
        o := Check(Reading);
        o := if o.Crash? then Crash else Failure;
        return;
      }
      FailReportIsSafe(world, run);
      o := Do(FailReported(world, run));
    }

    // ---- Applying a candidate ----------------------------------------------

    /** `docker stop`. */
    method Stop(g: Generation) returns (o: Outcome)
      requires Valid() && RollbackTarget(world, g)
      modifies this`clock, this`world, this`seen
      ensures Valid() && old(seen) <= seen && clock == old(clock) + 1
      ensures SameButLive(old(world), world) && world.env == old(world).env && world.config == old(world).config
      ensures o.Done? ==> !world.containerUp
      ensures o.Done? <==> script(old(clock)).Smooth?
    {
      hide Safe, Grows;
      RestoreIsSafe(world, g, false);
      o := Do(world.(containerUp := false));
    }

    method WriteCandidateEnv(g: Generation, id: ClientId, config: string) returns (o: Outcome)
      requires Valid() && CandidateOpen(world, g, id)
      requires world.backups[g].config.Some? && IsCandidateConfig(world.backups[g].config.value, config)
      modifies this`clock, this`world, this`seen
      ensures Valid() && old(seen) <= seen && clock == old(clock) + 1
      ensures SameButLive(old(world), world) && world.backups == old(world).backups && world.backups[g].env.Some?
      ensures world.containerUp == old(world).containerUp
      ensures o.Done? ==> world.env == CandidateEnv(world.backups[g].env.value, id)
      ensures o.Done? <==> script(old(clock)).Smooth?
    {
      hide Safe, Grows, ConfigRewrite.UpdateYaml;
      SwitchIsSafe(world, g, id, config);
      o := Do(world.(env := CandidateEnv(world.backups[g].env.value, id)));
    }

    method WriteCandidateConfig(g: Generation, id: ClientId, config: string) returns (o: Outcome)
      requires Valid() && CandidateOpen(world, g, id)
      requires world.backups[g].config.Some? && IsCandidateConfig(world.backups[g].config.value, config)
      modifies this`clock, this`world, this`seen
      ensures Valid() && old(seen) <= seen && clock == old(clock) + 1
      ensures SameButLive(old(world), world) && world.backups == old(world).backups
      ensures world.env == old(world).env && world.containerUp == old(world).containerUp
      ensures o.Done? ==> world.config == config
      ensures o.Done? <==> script(old(clock)).Smooth?
    {
      hide Safe, Grows, ConfigRewrite.UpdateYaml;
      SwitchIsSafe(world, g, id, config);
      o := Do(world.(config := config));
    }

    /** Stops Hermes and replaces both files by the candidate's. */
    method SwitchToCandidate(g: Generation, id: ClientId, config: string) returns (o: Outcome)
      requires Valid() && CandidateOpen(world, g, id)
      requires world.backups[g].config.Some? && IsCandidateConfig(world.backups[g].config.value, config)
      modifies this`clock, this`world, this`seen, this`probes
      ensures Valid() && old(seen) <= seen && old(clock) <= clock && old(probes) <= probes
      ensures SameButLive(old(world), world)
      ensures o.Done? ==> CandidatePair(world.env, world.config, world.backups[g], id) && !world.containerUp
      ensures o.Done? <==> SmoothBetween(old(clock), clock)
    {
      hide Safe, Grows, ConfigRewrite.UpdateYaml, Valid, CandidateOpen, SameButLive;
      LiveStays(old(world), old(world), old(world), g, id);
      o := Stop(g);
      LiveStays(old(world), old(world), world, g, id);
      if !o.Done? { return; }
      ghost var stopped := world;
      o := WriteCandidateEnv(g, id, config);
      LiveStays(old(world), stopped, world, g, id);
      if !o.Done? { return; }
      ghost var rewritten := world;
      o := WriteCandidateConfig(g, id, config);
      LiveStays(old(world), rewritten, world, g, id);
    }

    /** Starts Hermes and waits until it is healthy. */
    method StartHealthy(g: Generation) returns (o: Outcome)
      requires Valid() && RollbackTarget(world, g)
      modifies this`clock, this`world, this`seen, this`probes
      ensures Valid() && old(seen) <= seen && old(clock) <= clock && old(probes) <= probes
      ensures world == old(world).(containerUp := world.containerUp)
      ensures o.Done? ==> world.containerUp
      ensures o.Done? <==> SmoothBetween(old(clock), clock)
      ensures o.Done? ==> clock > old(clock) && Probe(clock - 1, Health, world.env, world.config, true) in probes
    {
      hide Safe, Grows;
      RestoreIsSafe(world, g, true);
      o := Do(world.(containerUp := true));
      if !o.Done? { return; }
      o := Check(Health);
    }

    /** The rollback rehearsal: the snapshot is put back and Hermes started on it. */
    method Rehearse(g: Generation) returns (o: Outcome)
      requires Valid() && RollbackTarget(world, g)
      modifies this`clock, this`world, this`seen, this`probes
      ensures Valid() && old(seen) <= seen && old(clock) <= clock && old(probes) <= probes
      ensures SameButLive(old(world), world)
      ensures o.Done? <==> SmoothBetween(old(clock), clock)
      ensures o.Done? ==>
                && clock > old(clock) && SnapshotPair(world.env, world.config, world.backups[g])
                && Probe(clock - 1, Health, world.env, world.config, true) in probes
    {
      hide Safe, Grows;
      RestoreIsSafe(world, g, false);
      o := Do(world.(containerUp := false));
      if !o.Done? { return; }
      o := RestoreSnapshot(g);
      if !o.Done? { return; }
      o := StartHealthy(g);
    }

    /** The live files are scanned and the journal says that the candidate is applied. */
    method MarkApplied(g: Generation, id: ClientId) returns (o: Outcome)
      requires Valid() && CandidateOpen(world, g, id)
      modifies this`clock, this`world, this`seen, this`probes
      ensures Valid() && old(seen) <= seen && old(clock) <= clock && old(probes) <= probes
      ensures CandidateOpen(world, g, id) && JournalMoved(old(world).backups, world.backups, g)
      ensures world == old(world).(backups := world.backups)
      ensures o.Done? ==> SmoothBetween(old(clock), clock) && clock > old(clock)
      ensures o.Done? && CandidatePair(world.env, world.config, world.backups[g], id) ==>
                SeenOnCandidate(probes, old(clock), DirectKeyScan, world.containerUp, world.backups[g], id)
      ensures SmoothBetween(old(clock), clock) ==> o.Done?
    {
      hide Safe, Grows, SafePair, SnapshotValid, JournalReady;
      o := Check(DirectKeyScan);
      if !o.Done? { return; }
      MoveToCandidateApplied(world, g, id);
      o := WriteJournal(g, CandidateApplied, Some(id));
    }

    /** The candidate is started, found healthy and verified. */
    method StartVerified(g: Generation, id: ClientId) returns (o: Outcome)
      requires Valid() && RollbackTarget(world, g) && CandidatePair(world.env, world.config, world.backups[g], id)
      modifies this`clock, this`world, this`seen, this`probes
      ensures Valid() && old(seen) <= seen && old(clock) <= clock && old(probes) <= probes
      ensures world == old(world).(containerUp := world.containerUp)
      ensures o.Done? ==> world.containerUp && SmoothBetween(old(clock), clock)
      ensures o.Done? ==>
                && clock >= old(clock) + 2
                && SeenOnCandidate(probes, clock - 2, Health, true, world.backups[g], id)
                && SeenOnCandidate(probes, clock - 1, Verification, true, world.backups[g], id)
      ensures SmoothBetween(old(clock), clock) ==> o.Done?
    {
      hide Safe, Grows, ConfigRewrite.UpdateYaml, RollbackTarget, Valid;
      o := StartHealthy(g);
      if !o.Done? { return; }
      o := Check(Verification);
    }

    /** The candidate is switched to and verified for the first time. */
    method FirstTrial(g: Generation, id: ClientId, config: string) returns (o: Outcome)
      requires Valid() && CandidateOpen(world, g, id)
      requires world.backups[g].config.Some? && IsCandidateConfig(world.backups[g].config.value, config)
      modifies this`clock, this`world, this`seen, this`probes
      ensures Valid() && old(seen) <= seen && old(clock) <= clock && old(probes) <= probes
      ensures CandidateOpen(world, g, id) && JournalMoved(old(world).backups, world.backups, g)
      ensures SameButLive(old(world).(backups := world.backups), world)
      ensures o.Done? <==> SmoothBetween(old(clock), clock)
      ensures o.Done? ==> exists times :: FirstTrialSeen(probes, times, old(clock), clock, world.backups[g], id)
    {
      hide Safe, Grows, SafePair, SnapshotValid, JournalReady, ConfigRewrite.UpdateYaml, Valid, JournalMoved,
           SameButLive, CandidateOpen, RollbackTarget, CandidatePair, IsCandidateConfig, SeenOnCandidate;
      LiveStays(world, world, world, g, id);
      JournalStays(world.backups, g);
      o := SwitchToCandidate(g, id, config);
      ghost var switched, scanned := world, clock;
      CandidateStays(old(world), switched, switched, switched, g, id);
      LiveStays(old(world), switched, switched, g, id);
      if !o.Done? { return; }
      o := MarkApplied(g, id);
      ghost var marked, found := world, probes;
      MovedKeepsFiles(switched.backups, marked.backups, g);
      CandidateStays(old(world), switched, marked, marked, g, id);
      if !o.Done? { return; }
      PairIsOfFiles(marked.env, marked.config, switched.backups[g], marked.backups[g], id);
      o := StartVerified(g, id);
      CandidateStays(old(world), switched, marked, world, g, id);
      if !o.Done? { return; }
      SeenStays(found, probes, scanned, DirectKeyScan, false, marked.backups[g], world.backups[g], id);
      assert FirstTrialSeen(probes, Times(scanned, clock - 2, clock - 1, 0, 0, 0, 0), old(clock), clock,
                            world.backups[g], id);
    }

    /** The rollback is rehearsed, then the candidate is switched to again. */
    method RehearseAndSwitch(g: Generation, id: ClientId, config: string) returns (o: Outcome, ghost rehearsed: nat)
      requires Valid() && CandidateOpen(world, g, id)
      requires world.backups[g].config.Some? && IsCandidateConfig(world.backups[g].config.value, config)
      modifies this`clock, this`world, this`seen, this`probes
      ensures Valid() && old(seen) <= seen && old(clock) <= clock && old(probes) <= probes
      ensures SameButLive(old(world), world)
      ensures o.Done? ==> CandidatePair(world.env, world.config, world.backups[g], id) && !world.containerUp
      ensures o.Done? ==>
                && SmoothBetween(old(clock), clock) && old(clock) <= rehearsed < clock
                && HealthyOnSnapshot(probes, rehearsed, world.backups[g])
      ensures SmoothBetween(old(clock), clock) ==> o.Done?
    {
      hide Safe, Grows, SafePair, SnapshotValid, JournalReady, ConfigRewrite.UpdateYaml, Valid, JournalMoved;
      o := Rehearse(g);
      rehearsed := clock - 1;
      if !o.Done? { return; }
      o := SwitchToCandidate(g, id, config);
    }

    /** The rollback is rehearsed, then the candidate is switched to and verified again. */
    method SecondTrial(g: Generation, id: ClientId, config: string) returns (o: Outcome)
      requires Valid() && CandidateOpen(world, g, id)
      requires world.backups[g].config.Some? && IsCandidateConfig(world.backups[g].config.value, config)
      modifies this`clock, this`world, this`seen, this`probes
      ensures Valid() && old(seen) <= seen && old(clock) <= clock && old(probes) <= probes
      ensures SameButLive(old(world), world)
      ensures o.Done? ==> CandidatePair(world.env, world.config, world.backups[g], id) && world.containerUp
      ensures o.Done? <==> SmoothBetween(old(clock), clock)
      ensures o.Done? ==> exists times :: SecondTrialSeen(probes, times, old(clock), clock, world.backups[g], id)
    {
      hide Safe, Grows, SafePair, SnapshotValid, JournalReady, ConfigRewrite.UpdateYaml, Valid, JournalMoved,
           CandidatePair;
      ghost var rehearsed;
      o, rehearsed := RehearseAndSwitch(g, id, config);
      if !o.Done? { return; }
      o := StartVerified(g, id);
      if !o.Done? { return; }
      o := Check(SecretScan);
      if !o.Done? { return; }
      CandidateSeen(probes, clock - 1, SecretScan, world, world.backups[g], id);
      assert SecondTrialSeen(probes, Times(0, 0, 0, rehearsed, clock - 3, clock - 2, clock - 1), old(clock), clock,
                             world.backups[g], id);
    }

    method WriteReceipt(g: Generation, id: ClientId, run: RunId) returns (o: Outcome)
      requires Valid() && CandidateOpen(world, g, id) && Runnable(world, run) && g !in world.committed
      modifies this`clock, this`world, this`seen, this`probes
      ensures Valid() && old(seen) <= seen && clock == old(clock) + 1 && old(probes) <= probes
      ensures world == old(world).(receipts := world.receipts)
      ensures CandidateOpen(world, g, id) && JournalMoved(old(world).backups, world.backups, g)
      ensures o.Done? ==> CanCommit(world, g) && g in world.receipts && world.receipts[g] == Receipt(id, run, build)
      ensures Tended(old(world), world, g, build)
      ensures o.Done? <==> SmoothBetween(old(clock), clock)
    {
      hide Safe, Grows, Tended, JournalMoved, Valid;
      SafeNow();
      JournalStays(world.backups, g);
      ReceiptTends(world, g, Receipt(id, run, build));
      ReceiptIsSafe(world, g, Receipt(id, run, build));
      o := Do(ReceiptWritten(world, g, Receipt(id, run, build)));
    }

    /** The receipt is written, then the journal reaches the commit point. */
    method Commit(g: Generation, id: ClientId, run: RunId) returns (o: Outcome)
      requires Valid() && CandidateOpen(world, g, id) && Runnable(world, run)
      requires CandidatePair(world.env, world.config, world.backups[g], id) && world.containerUp
      modifies this`clock, this`world, this`seen, this`probes
      ensures Valid() && old(seen) <= seen && old(clock) <= clock && old(probes) <= probes
      ensures world == old(world).(backups := world.backups, receipts := world.receipts, committed := world.committed)
      ensures JournalMoved(old(world).backups, world.backups, g)
      ensures o.Done? ==> CommittedFor(world, g, id, run) && world.committed == old(world).committed[g := run]
      ensures o.Failure? ==> CandidateOpen(world, g, id) && world.committed == old(world).committed
      ensures Tended(old(world), world, g, build)
      ensures world.committed == old(world).committed || world.committed == old(world).committed[g := run]
      ensures g in world.committed ==> clock > old(clock) && SmoothBetween(old(clock), clock - 1)
      ensures o.Done? <==> SmoothBetween(old(clock), clock)
    {
      hide Safe, Grows, SafePair, SnapshotValid, JournalReady, CandidatePair, ConfigRewrite.UpdateYaml, CandidateOpen,
           JournalWritten, JournalMoved, CommittedFor, Tended, SafeBackup, Valid, Runnable, CanCommit;
      SafeNow();
      OpenIsUncommitted(world, g, id);
      o := WriteReceipt(g, id, run);
      if !o.Done? { return; }
      SafeNow();
      MoveToCommitted(world, g, id);
      ghost var before := world;
      o := WriteJournal(g, Committed, Some(id));
      MovedToCommitted(before, world, g, id, run);
      CommitTends(old(world), before, world, g, build);
    }

    method MarkReady(g: Generation, id: ClientId) returns (o: Outcome)
      requires Valid() && world.last == Some(g)
      requires StateOf(world.backups, world.retirements, g) == Some(ClientOperationPrepared)
      requires ActiveClient(world.clients, id) && world.clients[id].name == HermesCutover(g)
      modifies this`clock, this`world, this`seen, this`probes
      ensures Valid() && old(seen) <= seen && old(clock) <= clock && old(probes) <= probes
      ensures world == old(world).(backups := world.backups) && JournalMoved(old(world).backups, world.backups, g)
      ensures RollbackTarget(world, g) && (o.Done? ==> CandidateOpen(world, g, id))
      ensures o.Done? <==> SmoothBetween(old(clock), clock)
    {
      hide Safe, Grows, SafePair, SnapshotValid, JournalReady, ActiveClient, JournalMoved, RollbackTarget,
           CandidateOpen, StateOf, JournalWritten;
      MoveToCandidateReady(world, g, id);
      ghost var before := world;
      o := WriteJournal(g, CandidateReady, Some(id));
      MovedToReady(before, world, g, id);
    }

    /** Both trials of the candidate, with the rehearsal between them. */
    method BothTrials(g: Generation, id: ClientId, config: string) returns (o: Outcome)
      requires Valid() && CandidateOpen(world, g, id)
      requires world.backups[g].config.Some? && IsCandidateConfig(world.backups[g].config.value, config)
      modifies this`clock, this`world, this`seen, this`probes
      ensures Valid() && old(seen) <= seen && old(clock) <= clock && old(probes) <= probes
      ensures CandidateOpen(world, g, id) && JournalMoved(old(world).backups, world.backups, g)
      ensures SameButLive(old(world).(backups := world.backups), world)
      ensures o.Done? ==> CandidatePair(world.env, world.config, world.backups[g], id) && world.containerUp
      ensures o.Done? ==> Proved(probes, old(clock), clock, world.backups[g], id)
      ensures o.Done? <==> SmoothBetween(old(clock), clock)
    {
      hide Safe, Grows, SafePair, SnapshotValid, JournalReady, ConfigRewrite.UpdateYaml, Valid, JournalMoved,
           CandidatePair, FirstTrialSeen, SecondTrialSeen, Tried, IsCandidateConfig;
      o := FirstTrial(g, id, config);
      MovedKeepsFiles(old(world).backups, world.backups, g);
      if !o.Done? { return; }
      ghost var seenFirst, between, d := probes, clock, world.backups[g];
      ghost var first :| FirstTrialSeen(probes, first, old(clock), clock, d, id);
      o := SecondTrial(g, id, config);
      if !o.Done? { return; }
      ghost var second :| SecondTrialSeen(probes, second, between, clock, world.backups[g], id);
      TrialsJoin(seenFirst, probes, first, second, old(clock), between, clock, d, world.backups[g], id);
    }

    /** From the journal's `candidate_ready` to the commit point. */
    method Trials(g: Generation, id: ClientId, run: RunId, config: string) returns (o: Outcome)
      requires Valid() && CandidateOpen(world, g, id) && Runnable(world, run)
      requires world.backups[g].config.Some? && IsCandidateConfig(world.backups[g].config.value, config)
      modifies this`clock, this`world, this`seen, this`probes
      ensures Valid() && old(seen) <= seen && old(clock) <= clock && old(probes) <= probes
      ensures world == old(world).(env := world.env, config := world.config, containerUp := world.containerUp,
                                   backups := world.backups, receipts := world.receipts, committed := world.committed)
      ensures JournalMoved(old(world).backups, world.backups, g)
      ensures o.Done? ==> CommittedFor(world, g, id, run) && world.committed == old(world).committed[g := run]
      ensures o.Failure? ==> RollbackTarget(world, g) && world.committed == old(world).committed
      ensures world.committed == old(world).committed || world.committed == old(world).committed[g := run]
      ensures g in world.committed ==> CommitProved(probes, old(clock), clock, world.backups[g], id)
      ensures Tended(old(world), world, g, build)
      ensures o.Done? <==> SmoothBetween(old(clock), clock)
    {
      hide Safe, Grows, SafePair, SnapshotValid, JournalReady, IsCandidateConfig, Tended, JournalMoved, Proved, Tried,
           CandidatePair;
      UnresolvedIsWhole(world, g);
      o := BothTrials(g, id, config);
      ghost var before, proven, seenSoFar := world, clock, probes;
      StillTended(old(world), before, g, build);
      if !o.Done? { return; }
      o := Commit(g, id, run);
      JournalMovesCompose(old(world).backups, before.backups, world.backups, g);
      TendingComposes(old(world), before, world, g, build);
      MovedKeepsFiles(before.backups, world.backups, g);
      if g in world.committed {
        CommitIsProved(seenSoFar, probes, old(clock), proven, clock, before.backups[g], world.backups[g], id);
      }
    }

    /** The journal admits the candidate, then the trials and the commit follow. */
    method ReadyAndCommit(g: Generation, id: ClientId, run: RunId, config: string) returns (o: Outcome)
      requires Valid() && world.last == Some(g)
      requires StateOf(world.backups, world.retirements, g) == Some(ClientOperationPrepared)
      requires world.backups[g].config.Some? && IsCandidateConfig(world.backups[g].config.value, config)
      requires ActiveClient(world.clients, id) && world.clients[id].name == HermesCutover(g)
      requires Runnable(world, run) && g !in world.committed
      modifies this`clock, this`world, this`seen, this`probes
      ensures Valid() && old(seen) <= seen && old(clock) <= clock && old(probes) <= probes
      ensures world == old(world).(env := world.env, config := world.config, containerUp := world.containerUp,
                                   backups := world.backups, receipts := world.receipts, committed := world.committed)
      ensures JournalMoved(old(world).backups, world.backups, g)
      ensures o.Done? ==> CommittedFor(world, g, id, run) && world.committed == old(world).committed[g := run]
      ensures o.Failure? ==> RollbackTarget(world, g) && world.committed == old(world).committed
      ensures Tended(old(world), world, g, build)
      ensures world.committed == old(world).committed || world.committed == old(world).committed[g := run]
      ensures g in world.committed ==> CommitProved(probes, old(clock), clock, world.backups[g], id)
      ensures o.Done? <==> SmoothBetween(old(clock), clock)
    {
      hide Safe, Grows, SafePair, SnapshotValid, JournalReady, ConfigRewrite.UpdateYaml, Tended, JournalMoved,
           CommitProved, Valid, CandidateOpen, CommittedFor, RollbackTarget, IsCandidateConfig, StateOf;
      o := MarkReady(g, id);
      ghost var before, ready := world, clock;
      StillTended(old(world), before, g, build);
      MovedKeepsFiles(old(world).backups, before.backups, g);
      if !o.Done? { return; }
      o := Trials(g, id, run, config);
      MovedKeepsFiles(before.backups, world.backups, g);
      ProvedFromEarlier(probes, probes, old(clock), ready, clock, clock, world.backups[g], world.backups[g], id);
      JournalMovesCompose(old(world).backups, before.backups, world.backups, g);
      TendingComposes(old(world), before, world, g, build);
    }

    /** Everything between issuing the client and the commit point. */
    method Precommit(g: Generation, id: ClientId, run: RunId) returns (o: Outcome)
      requires Valid() && world.last == Some(g)
      requires StateOf(world.backups, world.retirements, g) == Some(ClientOperationPrepared)
      requires world.backups[g].config == Some(world.config)
      requires ActiveClient(world.clients, id) && world.clients[id].name == HermesCutover(g)
      requires Runnable(world, run)
      modifies this`clock, this`world, this`seen, this`probes
      ensures Valid() && old(seen) <= seen && old(clock) <= clock && old(probes) <= probes
      ensures world == old(world).(env := world.env, config := world.config, containerUp := world.containerUp,
                                   backups := world.backups, receipts := world.receipts, committed := world.committed)
      ensures JournalMoved(old(world).backups, world.backups, g)
      ensures o.Done? ==> CommittedFor(world, g, id, run) && world.committed == old(world).committed[g := run]
      ensures o.Failure? ==> RollbackTarget(world, g) && world.committed == old(world).committed
      ensures Tended(old(world), world, g, build)
      ensures world.committed == old(world).committed || world.committed == old(world).committed[g := run]
      ensures g in world.committed ==> CommitProved(probes, old(clock), clock, world.backups[g], id)
      ensures o.Done? ==> SmoothBetween(old(clock), clock)
      ensures SmoothBetween(old(clock), clock) ==>
                if ConfigRewrite.UpdateYaml(old(world).config).Some? then o.Done? else o.Failure?
    {
      hide Safe, Grows, SafePair, SnapshotValid, JournalReady, ConfigRewrite.UpdateYaml, Tended, JournalMoved,
           CommitProved, Valid, CommittedFor, Runnable;
      SafeNow();
      UnresolvedIsWhole(world, g);
      JournalStays(world.backups, g);
      StillTended(world, world, g, build);
      o := Check(Reading);  // read both live files
      if !o.Done? { return; }
      var config := ConfigRewrite.UpdateYaml(world.config);
      if config.None? {
        return Failure;
      }
      ghost var read := clock;
      o := ReadyAndCommit(g, id, run, config.value);
      MovedKeepsFiles(old(world).backups, world.backups, g);
      ProvedFromEarlier(probes, probes, old(clock), read, clock, clock, world.backups[g], world.backups[g], id);
    }

    /** A client of generation `g` loses its authorization once the snapshot is back. */
    method RevokeCandidate(g: Generation, id: ClientId) returns (o: Outcome)
      requires Valid() && RolledBackPair(world, g)
      requires id in world.clients && world.clients[id].name == HermesCutover(g)
      modifies this`clock, this`world, this`seen, this`probes
      ensures Valid() && old(seen) <= seen && old(clock) <= clock && old(probes) <= probes
      ensures world == old(world) || world == Revoked(old(world), id)
      ensures o.Done? ==> world == Revoked(old(world), id)
      ensures o.Done? <==> SmoothBetween(old(clock), clock)
    {
      hide Safe, Grows, SafePair, SnapshotValid, JournalReady;
      CandidateRevocationIsSafe(world, g, id);
      o := Do(Revoked(world, id));
    }

    /** The snapshot is back: the journal says so, the candidate is revoked, the generation closed. */
    method CloseAbandoned(g: Generation, id: ClientId) returns (o: Outcome)
      requires Valid() && RolledBackPair(world, g) && RollbackTarget(world, g)
      requires id in world.clients && world.clients[id].name == HermesCutover(g)
      modifies this`clock, this`world, this`seen, this`probes
      ensures Valid() && old(seen) <= seen && old(clock) <= clock && old(probes) <= probes
      ensures world == old(world).(backups := world.backups, clients := world.clients)
      ensures JournalMoved(old(world).backups, world.backups, g)
      ensures o.Done? && SmoothBetween(old(clock), clock) ==>
                StateOf(world.backups, world.retirements, g) == Some(RolledBack) && CandidateGone(world.clients, g)
      ensures SmoothBetween(old(clock), clock) ==> o.Done?
    {
      hide Safe, Grows, SafePair, SnapshotValid, JournalReady, JournalMoved, JournalWritten, CandidateGone,
           RollbackTarget;
      MoveToRollbackCleanup(world, g, id);
      o := WriteJournal(g, RollbackCleanupPending, Some(id));
      ghost var before := world;
      MovedToCleanup(old(world), before, g, id);
      if o.Crash? { return; }
      o := RevokeAndClose(g, Some(id), RolledBack);
      JournalMovesCompose(old(world).backups, before.backups, world.backups, g);
    }

    /** A cutover that failed before its commit point is rolled back, then its client revoked. */
    method AbandonCandidate(g: Generation, id: ClientId) returns (o: Outcome)
      requires Valid() && RollbackTarget(world, g)
      requires id in world.clients && world.clients[id].name == HermesCutover(g)
      modifies this`clock, this`world, this`seen, this`probes
      ensures Valid() && old(seen) <= seen && old(clock) <= clock && old(probes) <= probes
      ensures world == old(world).(env := world.env, config := world.config, containerUp := world.containerUp,
                                   backups := world.backups, clients := world.clients)
      ensures JournalMoved(old(world).backups, world.backups, g)
      ensures SmoothBetween(old(clock), clock) ==>
                o.Done? && SnapshotPair(world.env, world.config, old(world).backups[g]) && world.containerUp
                && StateOf(world.backups, world.retirements, g) == Some(RolledBack) && CandidateGone(world.clients, g)
    {
      hide Safe, Grows, SafePair, SnapshotValid, JournalReady;
      o := RollbackAfterFailure(g);
      if o.Done? {
        o := CloseAbandoned(g, id);
      }
    }

    // ---- Reconciling a committed generation --------------------------------

    /** PASS is reported for a committed generation once every older client is revoked. */
    method ReportPassed(g: Generation) returns (o: Outcome)
      requires Valid() && world.last == Some(g) && PassPending(world.backups, world.retirements, g)
      requires g in world.receipts && g in world.committed && OthersRevoked(world, world.receipts[g].client)
      modifies this`clock, this`world, this`seen, this`probes
      ensures Valid() && old(seen) <= seen && old(clock) <= clock && old(probes) <= probes
      ensures world == old(world).(runs := world.runs)
      ensures o.Done? ==> PassTold(world, g)
      ensures o.Done? <==> SmoothBetween(old(clock), clock)
    {
      hide Safe, Grows, SafePair, SnapshotValid, PassPending, OthersRevoked, TimedOut, PassReported,
           PassTold, ToldOf, Valid;
      ghost var before := world;
      TimeOnlyEndsRuns(before, timeouts(clock), g);
      Elapse();
      SafeNow();
      PassReportIsSafe(world, g);
      o := Do(PassReported(world, world.committed[g], g));
      PassIsTold(before, timeouts(old(clock)), g);
    }

    method RevokeOther(g: Generation, id: ClientId, ghost pending: set<ClientId>) returns (o: Outcome)
      requires Valid() && world.last == Some(g) && PassPending(world.backups, world.retirements, g)
      requires g in world.receipts && id != world.receipts[g].client
      requires id in world.clients && world.clients[id].name.HermesCutover?
      requires OthersIn(world.clients, world.receipts[g].client, pending)
      modifies this`clock, this`world, this`seen, this`probes
      ensures Valid() && old(seen) <= seen && old(clock) <= clock && old(probes) <= probes
      ensures world == old(world).(clients := world.clients) && world.clients.Keys == old(world).clients.Keys
      ensures forall c | c in world.clients :: world.clients[c].name == old(world).clients[c].name
      ensures o.Done? ==> OthersIn(world.clients, world.receipts[g].client, pending - {id})
      ensures o.Done? <==> SmoothBetween(old(clock), clock)
    {
      hide Safe, Grows, SafePair, SnapshotValid, OthersIn, PassPending, StateOf;
      OtherMayBeRevoked(world, g, id);
      RevokingNarrows(world, world.receipts[g].client, pending, id);
      o := Do(Revoked(world, id));
    }

    /** `revoke_previous_clients_from`: the clients listed as active are revoked one by one. */
    method RevokePrevious(g: Generation) returns (o: Outcome)
      requires Valid() && world.last == Some(g) && PassPending(world.backups, world.retirements, g)
      requires g in world.receipts
      modifies this`clock, this`world, this`seen, this`probes
      ensures Valid() && old(seen) <= seen && old(clock) <= clock && old(probes) <= probes
      ensures world == old(world).(clients := world.clients)
      ensures o.Done? ==> OthersRevoked(world, world.receipts[g].client)
      ensures o.Done? <==> SmoothBetween(old(clock), clock)
    {
      hide Safe, Grows, SafePair, SnapshotValid, CandidatePair, OthersIn, OthersRevoked;
      o := Check(Reading);  // list_clients
      if !o.Done? { return; }
      var keep := world.receipts[g].client;
      var pending := set id | id in world.clients && id != keep && ActiveClient(world.clients, id)
                              && world.clients[id].name.HermesCutover?;
      AllAreStillIn(world.clients, keep, pending);
      while pending != {}
        invariant Valid() && old(seen) <= seen && old(clock) <= clock && old(probes) <= probes && o.Done?
        invariant SmoothBetween(old(clock), clock)
        invariant world == old(world).(clients := world.clients)
        invariant keep !in pending
        invariant forall c | c in pending :: c in world.clients && world.clients[c].name.HermesCutover?
        invariant OthersIn(world.clients, keep, pending)
        decreases pending
      {
        var id :| id in pending;
        o := RevokeOther(g, id, pending);
        if !o.Done? { return; }
        pending := pending - {id};
      }
      NoneLeftToRevoke(world, keep);
    }

    /** `reconcile_remote_state` and the journal write that follows it. */
    method Reconcile(g: Generation) returns (o: Outcome)
      requires Valid() && world.last == Some(g) && PassPending(world.backups, world.retirements, g)
      modifies this`clock, this`world, this`seen, this`probes
      ensures Valid() && old(seen) <= seen && old(clock) <= clock && old(probes) <= probes
      ensures world == old(world).(clients := world.clients, runs := world.runs, backups := world.backups)
      ensures JournalMoved(old(world).backups, world.backups, g)
      ensures world.backups[g].journal.Some?
              && world.backups[g].journal.value.client == old(world).backups[g].journal.value.client
      ensures o.Done? ==> StateOf(world.backups, world.retirements, g) == Some(Reconciled) && PassTold(world, g)
      ensures o.Done? ==> g in world.receipts && OthersRevoked(world, world.receipts[g].client)
      ensures o.Done? <==> SmoothBetween(old(clock), clock)
    {
      hide Safe, Grows, SafePair, SnapshotValid, JournalReady, CandidatePair;
      PendingGeneration(world, g);
      o := RevokePrevious(g);
      if !o.Done? { return; }
      o := ReportPassed(g);
      if !o.Done? { return; }
      PendingGeneration(world, g);
      MoveToReconciled(world, g);
      o := WriteJournal(g, Reconciled, Some(world.receipts[g].client));
    }

    // ---- apply -------------------------------------------------------------

    method IssueClient(g: Generation) returns (o: Outcome, id: ClientId)
      requires Valid() && world.last == Some(g) && StateOf(world.backups, world.retirements, g).Some?
      requires g < world.nextGeneration
      requires forall id | id in world.clients :: world.clients[id].name != HermesCutover(g)
      modifies this`clock, this`world, this`seen, this`probes
      ensures Valid() && old(seen) <= seen && old(clock) <= clock && old(probes) <= probes
      ensures world == old(world).(clients := world.clients, nextClient := world.nextClient)
      ensures o.Done? ==> ActiveClient(world.clients, id) && world.clients[id].name == HermesCutover(g)
      ensures o.Done? <==> SmoothBetween(old(clock), clock)
    {
      hide Safe, Grows, SafePair;
      id := world.nextClient;
      IssueIsSafe(world, g);
      o := Do(Issued(world, g));
    }

    /** From the issued client to the commit point; a failure is cleaned up. */
    method PrecommitOrAbandon(g: Generation, id: ClientId, run: RunId) returns (o: Outcome)
      requires Valid() && world.last == Some(g)
      requires StateOf(world.backups, world.retirements, g) == Some(ClientOperationPrepared)
      requires SnapshotPair(world.env, world.config, world.backups[g])
      requires ActiveClient(world.clients, id) && world.clients[id].name == HermesCutover(g)
      requires Runnable(world, run)
      modifies this`clock, this`world, this`seen, this`probes
      ensures Valid() && old(seen) <= seen && old(clock) <= clock && old(probes) <= probes
      ensures world.runs == old(world).runs && world.last == old(world).last
      ensures o.Done? ==> CommittedFor(world, g, id, run)
      ensures o.Failure? ==> world.committed == old(world).committed
      ensures Tended(old(world), world, g, build)
      ensures world.committed == old(world).committed || world.committed == old(world).committed[g := run]
      ensures g in world.backups && (o.Done? ==> g in world.committed)
      ensures g in world.committed ==>
                world.clients == old(world).clients && CommitProved(probes, old(clock), clock, world.backups[g], id)
      ensures o.Failure? && FailedOnce(old(clock), clock, old(world).config) ==>
                && Undone(old(world), world, g) && world.containerUp
                && StateOf(world.backups, world.retirements, g) == Some(RolledBack)
      ensures o.Done? ==> SmoothBetween(old(clock), clock)
      ensures SmoothBetween(old(clock), clock) ==>
                if ConfigRewrite.UpdateYaml(old(world).config).Some? then o.Done?
                else o.Failure? && world.env == old(world).env && world.config == old(world).config
    {
      hide Safe, Grows, SafePair, SnapshotValid, JournalReady, ConfigRewrite.UpdateYaml, Tended, JournalMoved,
           CommitProved, Valid, CommittedFor;
      o := Precommit(g, id, run);
      ghost var before, failed := world, clock;
      MovedKeepsFiles(old(world).backups, before.backups, g);
      TendedKeepsRow(old(world), world, g, build);
      if o.Failure? {
        SafeNow();
        UnresolvedIsWhole(world, g);
        o := AbandonCandidate(g, id);
        RestIsSmooth(old(clock), failed, clock, old(world).config);
        StillTended(before, world, g, build);
        TendingComposes(old(world), before, world, g, build);
        TendedKeepsRow(old(world), world, g, build);
        o := if o.Crash? then Crash else Failure;
      }
    }

    /** The client is issued; if that fails, the snapshot is put back. */
    method IssueOrRollBack(g: Generation) returns (o: Outcome, id: ClientId)
      requires Valid() && world.last == Some(g) && g !in world.retirements && g < world.nextGeneration
      requires g in world.backups && world.backups[g] == SnapshotOf(world, g)
      requires forall id | id in world.clients :: world.clients[id].name != HermesCutover(g)
      modifies this`clock, this`world, this`seen, this`probes
      ensures Valid() && old(seen) <= seen && old(clock) <= clock && old(probes) <= probes
      ensures world.backups == old(world).backups && world.receipts == old(world).receipts
      ensures world.runs == old(world).runs && world.failedReports == old(world).failedReports
      ensures world.last == old(world).last && world.retirements == old(world).retirements
      ensures world.committed == old(world).committed
      ensures o.Done? ==>
                && ActiveClient(world.clients, id) && world.clients[id].name == HermesCutover(g)
                && world.env == old(world).env && world.config == old(world).config
                && world.containerUp == old(world).containerUp
      ensures o.Failure? && FailedOnce(old(clock), clock, old(world).config) ==>
                Undone(old(world), world, g) && world.containerUp
      ensures o.Done? <==> SmoothBetween(old(clock), clock)
    {
      hide Safe, Grows, SafePair, SnapshotValid, JournalReady, ConfigRewrite.UpdateYaml, Valid;
      o, id := IssueClient(g);
      ghost var issued := clock;
      if o.Failure? {
        o := RollbackAfterFailure(g);
        RestIsSmooth(old(clock), issued, clock, old(world).config);
        o := if o.Crash? then Crash else Failure;
      }
    }

    /** From issuing the client to the commit point, with the cleanup of a failure on the way. */
    method CommitGeneration(g: Generation, run: RunId) returns (o: Outcome, id: ClientId)
      requires Valid() && Runnable(world, run) && world.last == Some(g) && g !in world.retirements
               && g < world.nextGeneration
      requires g in world.backups && world.backups[g] == SnapshotOf(world, g)
      requires forall id | id in world.clients :: world.clients[id].name != HermesCutover(g)
      modifies this`clock, this`world, this`seen, this`probes
      ensures Valid() && old(seen) <= seen && old(clock) <= clock && old(probes) <= probes
      ensures world.runs == old(world).runs && world.last == old(world).last
      ensures o.Done? ==> CommittedFor(world, g, id, run)
      ensures o.Failure? ==> world.committed == old(world).committed
      ensures Tended(old(world), world, g, build)
      ensures g in world.backups && (o.Done? ==> g in world.committed)
      ensures world.committed == old(world).committed || world.committed == old(world).committed[g := run]
      ensures g in world.committed ==> TriedFor(world, probes, old(clock), clock, g)
      ensures o.Failure? && FailedOnce(old(clock), clock, old(world).config) ==>
                Undone(old(world), world, g) && world.containerUp
      ensures o.Done? ==> SmoothBetween(old(clock), clock)
      ensures SmoothBetween(old(clock), clock) ==>
                if ConfigRewrite.UpdateYaml(old(world).config).Some? then o.Done?
                else o.Failure? && world.env == old(world).env && world.config == old(world).config
    {
      hide Safe, Grows, SafePair, SnapshotValid, JournalReady, ConfigRewrite.UpdateYaml, Tended, JournalMoved,
           CommitProved, Valid, TriedFor, Runnable, StateOf, SnapshotOf, CommittedFor, SafeBackup, RollbackTarget;
      SafeNow();
      SnapshotIsPrepared(world, g);
      o, id := IssueOrRollBack(g);
      ghost var issued, ready := world, clock;
      JournalStays(issued.backups, g);
      StillTended(old(world), issued, g, build);
      if !o.Done? { return; }
      StillRunnable(old(world), issued, run);
      o := PrecommitOrAbandon(g, id, run);
      RestIsSmooth(old(clock), ready, clock, old(world).config);
      TendingComposes(old(world), issued, world, g, build);
      if g in world.committed {
        ProvedFromEarlier(probes, probes, old(clock), ready, clock, clock, world.backups[g], world.backups[g], id);
        IsTriedFor(world, probes, old(clock), clock, g, id);
      }
    }

    /** The committed generation is reconciled, or left for the next run to reconcile. */
    method Settle(g: Generation, id: ClientId, run: RunId) returns (verdict: Verdict)
      requires Valid() && CommittedFor(world, g, id, run)
      modifies this`clock, this`world, this`seen, this`probes
      ensures Valid() && old(seen) <= seen && old(clock) <= clock && old(probes) <= probes
      ensures verdict.Applied? || verdict.CommittedReconcilePending? ==> Switched(world, g, run)
      ensures verdict.Applied? ==> StateOf(world.backups, world.retirements, g) == Some(Reconciled)
      ensures verdict.Applied? ==> OthersRevoked(world, id) && PassTold(world, g)
      ensures !verdict.FailedBeforeCommit? && world.committed == old(world).committed
      ensures JournalMoved(old(world).backups, world.backups, g)
      ensures OwnReceipt(old(world), g, build) ==> Tended(old(world), world, g, build)
      ensures verdict.Applied? ==> SmoothBetween(old(clock), clock)
      ensures SmoothBetween(old(clock), clock) ==> verdict.Applied?
    {
      hide Safe, Grows, SafePair, SnapshotValid, JournalReady, ConfigRewrite.UpdateYaml;
      PendingGeneration(world, g);
      var o := Reconcile(g);
      ghost var before := world.backups;
      if o.Crash? { return Died; }
      if o.Done? { return Applied; }
      MoveToReconcilePending(world, g, id);
      o := WriteJournal(g, ReconcilePending, Some(id));
      JournalMovesCompose(old(world).backups, before, world.backups, g);
      return if o.Crash? then Died else CommittedReconcilePending;
    }

    lemma GrewSince(w: World)
      requires Valid() && w in seen
      ensures Grows(w, world)
    {}

    lemma SafeNow()
      requires Valid()
      ensures Safe(world) && world in seen
    {}

    /** A failure before the commit point is reported before the verdict is given. */
    method FailBeforeCommit(run: RunId) returns (verdict: Verdict)
      requires Valid() && run in world.runs && run !in world.committed.Values
      modifies this`clock, this`world, this`seen, this`probes
      ensures Valid() && old(seen) <= seen && old(clock) <= clock && old(probes) <= probes
      ensures world == old(world).(runs := world.runs, failedReports := world.failedReports)
      ensures verdict.FailedBeforeCommit? || verdict.Died?
      ensures CanRecover(old(world), build) ==> CanRecover(world, build)
      ensures run in world.runs
      ensures SmoothBetween(old(clock), clock) ==> verdict.FailedBeforeCommit? && !world.runs[run].Running?
    {
      hide Safe, Grows, CanRecover, Valid;
      var o := ReportFailed(run);
      RunsDoNotMatter(old(world), world, build);
      verdict := if o.Crash? then Died else FailedBeforeCommit;
    }

    /** The published generation is committed and settled, or abandoned. */
    method CommitAndSettle(g: Generation, run: RunId) returns (verdict: Verdict)
      requires Valid() && Runnable(world, run) && world.last == Some(g) && g !in world.retirements
               && g < world.nextGeneration && g !in world.committed
      requires g in world.backups && world.backups[g] == SnapshotOf(world, g)
      requires forall id | id in world.clients :: world.clients[id].name != HermesCutover(g)
      modifies this`clock, this`world, this`seen, this`probes
      ensures Valid() && old(seen) <= seen && old(clock) <= clock && old(probes) <= probes
      ensures verdict.Applied? ==>
                Switched(world, g, run) && StateOf(world.backups, world.retirements, g) == Some(Reconciled)
      ensures verdict.CommittedReconcilePending? ==> Switched(world, g, run)
      ensures verdict.FailedBeforeCommit? ==> world.committed == old(world).committed
      ensures world.committed == old(world).committed || world.committed == old(world).committed[g := run]
      ensures g in world.backups
      ensures g in world.committed ==> TriedFor(world, probes, old(clock), clock, g)
      ensures world.backups - {g} == old(world).backups - {g}
      ensures CanRecover(old(world), build) ==> CanRecover(world, build)
      ensures run in world.runs
      ensures verdict.FailedBeforeCommit? && FailedOnce(old(clock), clock, old(world).config) ==>
                Undone(old(world), world, g) && world.containerUp && !world.runs[run].Running?
      ensures verdict.Applied? ==> SmoothBetween(old(clock), clock)
      ensures SmoothBetween(old(clock), clock) ==>
                if ConfigRewrite.UpdateYaml(old(world).config).Some? then verdict.Applied?
                else verdict.FailedBeforeCommit? && world.env == old(world).env && world.config == old(world).config
    {
      hide Safe, Grows, ConfigRewrite.UpdateYaml, Tended, CanRecover, Switched, SnapshotOf, Valid, OwnReceipt,
           TriedFor, JournalMoved, StateOf;
      var o, id := CommitGeneration(g, run);
      ghost var w, p, t := world, probes, clock;
      SafeNow();
      TendingFacts(old(world), world, g, build);
      match o {
        case Crash =>
          verdict := Died;
        case Failure =>
          verdict := FailBeforeCommit(run);
          RestIsSmooth(old(clock), t, clock, old(world).config);
        case Done =>
          ghost var committed := world;
          verdict := Settle(g, id, run);
          GrewSince(w);
          MovedKeepsFiles(w.backups, world.backups, g);
          TriedForStays(w, world, p, probes, old(clock), old(clock), t, clock, g);
          SafeNow();
          TendingFacts(committed, world, g, build);
      }
    }

    /** `apply` for a QA run that is still running. */
    method Apply(run: RunId) returns (verdict: Verdict, g: Generation)
      requires Valid() && NoneUnresolved(world.backups, world.retirements) && Runnable(world, run)
      modifies this`clock, this`world, this`seen, this`probes
      ensures Valid() && old(seen) <= seen && old(clock) <= clock && old(probes) <= probes
      ensures verdict.Applied? ==>
                Switched(world, g, run) && StateOf(world.backups, world.retirements, g) == Some(Reconciled)
      ensures verdict.CommittedReconcilePending? ==> Switched(world, g, run)
      ensures verdict.FailedBeforeCommit? ==> world.committed == old(world).committed
      ensures world.committed == old(world).committed || world.committed == old(world).committed[g := run]
      ensures g in world.committed ==> TriedFor(world, probes, old(clock), clock, g)
      ensures g !in old(world).backups && world.backups - {g} == old(world).backups
      ensures CanRecover(old(world), build) ==> CanRecover(world, build)
      ensures run in world.runs
      ensures verdict.FailedBeforeCommit? && FailedOnce(old(clock), clock, old(world).config) ==>
                Undone(old(world), world, g) && !world.runs[run].Running?
      ensures verdict.Applied? ==> SmoothBetween(old(clock), clock)
      ensures SmoothBetween(old(clock), clock) ==>
                if ConfigRewrite.UpdateYaml(old(world).config).Some? then verdict.Applied?
                else verdict.FailedBeforeCommit? && world.env == old(world).env && world.config == old(world).config
    {
      hide Safe, Grows, ConfigRewrite.UpdateYaml, CanRecover, Switched, SnapshotOf, NoneUnresolved, Valid, StateOf,
           TriedFor, Undone, FailedOnce, SmoothBetween;
      var o;
      o, g := Snapshot();
      ghost var start, taken := world, clock;
      PublishKeepsRecoverable(old(world), world, g, build);
      match o {
        case Crash =>
          verdict := Died;
        case Failure =>
          verdict := FailBeforeCommit(run);
          RestIsSmooth(old(clock), taken, clock, old(world).config);
          NothingApplied(old(world), world, start, g);
        case Done =>
          verdict := CommitAndSettle(g, run);
          RestIsSmooth(old(clock), taken, clock, old(world).config);
          UndoneSince(old(world), start, world, g);
          if g in world.committed {
            GrowsItself(world);
            TriedForStays(world, world, probes, probes, old(clock), taken, clock, clock, g);
          }
      }
    }

    // ---- Recovery ----------------------------------------------------------

    /** `find_active_client_by_label`. */
    method FindActiveClientByLabel(name: Label) returns (o: Outcome, found: Option<ClientId>)
      requires Valid()
      modifies this`clock, this`probes
      ensures Valid() && old(clock) <= clock && old(probes) <= probes
      ensures o.Done? && found.Some? ==>
                ActiveClient(world.clients, found.value) && world.clients[found.value].name == name
      ensures o.Done? && found.None? ==> forall id | ActiveClient(world.clients, id) :: world.clients[id].name != name
      ensures o.Done? <==> SmoothBetween(old(clock), clock)
    {
      hide Safe, Grows;
      o := Check(Reading);
      var matching := set id | id in world.clients && ActiveClient(world.clients, id) && world.clients[id].name == name;
      if matching == {} {
        found := None;
        assert forall id | ActiveClient(world.clients, id) :: world.clients[id].name == name ==> id in matching;
      } else {
        var id :| id in matching;
        found := Some(id);
      }
    }

    /** The candidate client of an interrupted generation: named by the journal, or found by its label. */
    method CandidateOf(g: Generation, j: Journal) returns (o: Outcome, client: Option<ClientId>)
      requires Valid() && (j.client.Some? ==> JournalClient(world.clients, g, j)) && j.name == Some(HermesCutover(g))
      modifies this`clock, this`probes
      ensures Valid() && old(clock) <= clock && old(probes) <= probes
      ensures client.Some? && o.Done? ==>
                client.value in world.clients && world.clients[client.value].name == HermesCutover(g)
      ensures client.None? && o.Done? ==> CandidateGone(world.clients, g)
      ensures o.Done? <==> SmoothBetween(old(clock), clock)
    {
      hide Safe, Grows;
      o, client := Done, j.client;
      if client.None? && j.name.Some? {
        o, client := FindActiveClientByLabel(j.name.value);
      }
    }

    /** The candidate of a generation whose snapshot is back is revoked, and the journal closed. */
    method RevokeAndClose(g: Generation, client: Option<ClientId>, closing: JournalState) returns (o: Outcome)
      requires Valid() && RolledBackPair(world, g) && (closing.RolledBack? || closing.Recovered?)
      requires if client.None? then CandidateGone(world.clients, g)
               else client.value in world.clients && world.clients[client.value].name == HermesCutover(g)
      modifies this`clock, this`world, this`seen, this`probes
      ensures Valid() && old(seen) <= seen && old(clock) <= clock && old(probes) <= probes
      ensures world == old(world).(backups := world.backups, clients := world.clients)
      ensures JournalMoved(old(world).backups, world.backups, g)
      ensures o.Done? ==>
                StateOf(world.backups, world.retirements, g) == Some(closing) && CandidateGone(world.clients, g)
      ensures o.Done? <==> SmoothBetween(old(clock), clock)
    {
      hide Safe, Grows, SafePair, SnapshotValid, JournalReady;
      if client.Some? {
        UnresolvedIsNewest(world, g);
        o := RevokeCandidate(g, client.value);
        if !o.Done? { return; }
      }
      assert CandidateGone(world.clients, g);
      MoveToRolledBack(world, g, closing, client);
      o := WriteJournal(g, closing, client);
    }

    /** A committed generation is reconciled, by the build that committed it. */
    method ReconcileInterrupted(g: Generation) returns (o: Outcome)
      requires Valid() && world.last == Some(g) && PassPending(world.backups, world.retirements, g)
      modifies this`clock, this`world, this`seen, this`probes
      ensures Valid() && old(seen) <= seen && old(clock) <= clock && old(probes) <= probes
      ensures world == old(world).(clients := world.clients, runs := world.runs, backups := world.backups)
      ensures JournalMoved(old(world).backups, world.backups, g)
      ensures o.Done? ==> StateOf(world.backups, world.retirements, g) == Some(Reconciled) && PassTold(world, g)
      ensures o.Done? ==> OwnReceipt(world, g, build)
      ensures o.Done? ==> SmoothBetween(old(clock), clock)
      ensures SmoothBetween(old(clock), clock) && OwnReceipt(world, g, build) ==> o.Done?
    {
      hide Safe, Grows, SafePair, SnapshotValid, JournalReady, Valid, JournalMoved, PassPending, StateOf;
      SafeNow();
      PendingHasReceipt(world, g);
      JournalStays(world.backups, g);
      o := Check(Reading);  // load_committed_receipt
      if o.Done? && world.receipts[g].build != build {
        o := Failure;
      }
      if o.Done? {
        o := Reconcile(g);
      }
    }

    /** One unresolved generation is repaired according to its journal. */
    method RecoverGeneration(g: Generation) returns (o: Outcome)
      requires Valid() && Unresolved(world, g)
      modifies this`clock, this`world, this`seen, this`probes
      ensures Valid() && old(seen) <= seen && old(clock) <= clock && old(probes) <= probes
      ensures world == old(world).(env := world.env, config := world.config, containerUp := world.containerUp,
                                   backups := world.backups, clients := world.clients, runs := world.runs)
      ensures JournalMoved(old(world).backups, world.backups, g)
      ensures o.Done? ==> !Unresolved(world, g) && world.backups[g].journal.Some? && ResolvedAs(old(world), world, g)
      ensures o.Done? && PassPending(old(world).backups, old(world).retirements, g) ==> OwnReceipt(old(world), g, build)
      ensures SmoothBetween(old(clock), clock)
              && (PassPending(old(world).backups, old(world).retirements, g) ==> OwnReceipt(world, g, build)) ==>
                o.Done?
    {
      hide Safe, Grows, SafePair, SnapshotValid, JournalReady, Valid;
      SafeNow();
      UnresolvedIsNewest(world, g);
      var j := world.backups[g].journal.value;
      match Recovery(j) {
        case None => assert false;
        case Some(NoAction) => assert false;
        case Some(ReconcileCommitted) =>
          o := ReconcileInterrupted(g);
        case Some(RollbackAndRevoke) =>
          o := RollbackAfterFailure(g);
          if o.Done? {
            o := RevokeInterrupted(g, j, Recovered);
          }
        case Some(RevokeAfterRollback) =>
          o := RevokeInterrupted(g, j, RolledBack);
      }
    }

    method RevokeInterrupted(g: Generation, j: Journal, closing: JournalState) returns (o: Outcome)
      requires Valid() && RolledBackPair(world, g) && (closing.RolledBack? || closing.Recovered?)
      requires world.backups[g].journal == Some(j)
      modifies this`clock, this`world, this`seen, this`probes
      ensures Valid() && old(seen) <= seen && old(clock) <= clock && old(probes) <= probes
      ensures world == old(world).(backups := world.backups, clients := world.clients)
      ensures JournalMoved(old(world).backups, world.backups, g)
      ensures o.Done? ==>
                StateOf(world.backups, world.retirements, g) == Some(closing) && CandidateGone(world.clients, g)
      ensures o.Done? <==> SmoothBetween(old(clock), clock)
    {
      hide Safe, Grows, SafePair, SnapshotValid, JournalReady;
      UnresolvedIsNewest(world, g);
      var client;
      o, client := CandidateOf(g, j);
      if o.Done? {
        o := RevokeAndClose(g, client, closing);
      }
    }

    /** `recover_incomplete_cutovers`: staging directories are removed and every
        snapshot verified first, then each generation is repaired. With all steps going
        well it succeeds exactly where every backup is whole and a committed one that
        waits for its reconciliation is of this build. `summary`: the QA runs reconciled. */
    method Recover() returns (o: Outcome, summary: set<RunId>)
      requires Valid()
      modifies this`clock, this`world, this`seen, this`probes
      ensures Valid() && old(seen) <= seen && old(clock) <= clock && old(probes) <= probes
      ensures Repairing(old(world), world.(stages := old(world).stages))
      ensures o.Done? ==> Settled(world) && CanRecover(old(world), build)
      ensures o.Done? ==> forall g | Unresolved(old(world), g) :: g in world.backups && ResolvedAs(old(world), world, g)
      ensures o.Done? ==> forall run | run in summary :: exists g :: ReconciledFor(world, g, run)
      ensures NoneUnresolved(old(world).backups, old(world).retirements) ==> SameButStages(old(world), world)
      ensures Settled(old(world)) ==> world == old(world)
      ensures CanRecover(old(world), build) ==> CanRecover(world, build)
      ensures SmoothBetween(old(clock), clock) && CanRecover(old(world), build) ==> o.Done?
    {
      hide Safe, Grows, SafePair, SnapshotValid;
      summary := {};
      o := VerifyBackups();
      if !o.Done? { return; }
      o, summary := RepairBackups();
    }

    /** The second pass of the recovery. */
    method RepairBackups() returns (o: Outcome, summary: set<RunId>)
      requires Valid()
      modifies this`clock, this`world, this`seen, this`probes
      ensures Valid() && old(seen) <= seen && old(clock) <= clock && old(probes) <= probes
      ensures Repairing(old(world), world)
      ensures o.Done? ==> NoneUnresolved(world.backups, world.retirements)
      ensures o.Done? ==> forall g | Unresolved(old(world), g) :: g in world.backups && ResolvedAs(old(world), world, g)
      ensures o.Done? ==>
                forall g | PassPending(old(world).backups, old(world).retirements, g) ::
                  OwnReceipt(old(world), g, build)
      ensures o.Done? ==> forall g | g in old(world).backups :: old(world).backups[g].journal.Some?
      ensures o.Done? ==> forall run | run in summary :: exists g :: ReconciledFor(world, g, run)
      ensures NoneUnresolved(old(world).backups, old(world).retirements) ==> world == old(world)
      ensures CanRecover(old(world), build) ==> CanRecover(world, build)
      ensures SmoothBetween(old(clock), clock) && CanRecover(old(world), build) ==> o.Done?
    {
      hide Safe, Grows, SafePair, SnapshotValid, ResolvedAs, AllWhole, JournalMoved, OwnReceipt, ReconciledFor,
           StateOf, PassPending;
      ghost var w := world;
      UnresolvedAreBackups(w);
      ghost var repaired: Option<Generation> := None;
      o, summary := Done, {};
      var rest := world.backups.Keys;
      while rest != {}
        invariant Valid() && old(seen) <= seen && old(clock) <= clock && old(probes) <= probes && o.Done?
        invariant rest <= w.backups.Keys && Repairing(w, world)
        invariant repaired.None? ==>
                    world == w && summary == {} && forall g | g in w.backups && g !in rest :: !Unresolved(w, g)
        invariant repaired.Some? ==>
                    && Repaired(w, world, repaired.value) && JournalMoved(w.backups, world.backups, repaired.value)
                    && (PassPending(w.backups, w.retirements, repaired.value) ==> OwnReceipt(w, repaired.value, build))
        invariant forall run | run in summary :: exists g :: ReconciledFor(world, g, run)
        invariant AllWhole(w.backups) ==> AllWhole(world.backups)
        invariant CanRecover(w, build) ==> CanRecover(world, build)
        invariant forall g | g in w.backups && g !in rest :: w.backups[g].journal.Some?
        decreases rest
      {
        var g :| g in rest;
        if repaired.Some? {
          JournalsWere(w, world, repaired.value, g);
        }
        WholeHasJournal(world.backups, g);
        if world.backups[g].journal.None? {
          return Failure, summary;
        }
        if Unresolved(world, g) {
          o, summary := RepairOne(g);
          if !o.Done? { return; }
          repaired := Some(g);
        }
        rest := rest - {g};
      }
    }

    method RepairOne(g: Generation) returns (o: Outcome, summary: set<RunId>)
      requires Valid() && Unresolved(world, g)
      modifies this`clock, this`world, this`seen, this`probes
      ensures Valid() && old(seen) <= seen && old(clock) <= clock && old(probes) <= probes
      ensures Repairing(old(world), world)
      ensures JournalMoved(old(world).backups, world.backups, g) && (o.Done? ==> Repaired(old(world), world, g))
      ensures CanRecover(old(world), build) ==> CanRecover(world, build)
      ensures o.Done? ==> (AllWhole(old(world).backups) ==> AllWhole(world.backups))
      ensures o.Done? && PassPending(old(world).backups, old(world).retirements, g) ==> OwnReceipt(old(world), g, build)
      ensures o.Done? ==> forall run | run in summary :: ReconciledFor(world, g, run)
      ensures SmoothBetween(old(clock), clock)
              && (PassPending(old(world).backups, old(world).retirements, g) ==> OwnReceipt(old(world), g, build)) ==>
                o.Done?
    {
      hide Safe, Grows, SafePair, SnapshotValid, ResolvedAs, AllWhole, ReconciledFor;
      ghost var w := world;
      summary := {};
      var pending := PassPending(world.backups, world.retirements, g);
      o := RecoverGeneration(g);
      RepairKeepsRecoverable(w, world, g, build);
      if o.Done? {
        RepairIsComplete(w, world, g);
        if pending {
          PendingIsReconciledFor(w, world, g);
          summary := {world.receipts[g].run};
        }
      }
    }

    /** The first pass of the recovery. */
    method VerifyBackups() returns (o: Outcome)
      requires Valid()
      modifies this`clock, this`world, this`seen, this`probes
      ensures Valid() && old(seen) <= seen && old(clock) <= clock && old(probes) <= probes
      ensures SameButStages(old(world), world)
      ensures o.Done? ==> world.stages == map[]
      ensures o.Done? ==> forall g | g in world.backups :: SnapshotValid(world.backups[g], g)
      ensures old(world).stages == map[] ==> world == old(world)
      ensures o.Done? ==> SmoothBetween(old(clock), clock)
      ensures SmoothBetween(old(clock), clock) && AllWhole(old(world).backups) ==> o.Done?
    {
      hide Safe, Grows, SnapshotValid;
      o := Check(Reading);  // read the backup root
      if !o.Done? { return; }
      var rest := world.stages.Keys + world.backups.Keys;
      while rest != {}
        invariant Valid() && old(seen) <= seen && old(clock) <= clock && old(probes) <= probes && o.Done?
        invariant SmoothBetween(old(clock), clock)
        invariant SameButStages(old(world), world) && world.stages.Keys <= rest
        invariant rest <= old(world).stages.Keys + old(world).backups.Keys
        invariant forall g | g in world.backups && g !in rest :: SnapshotValid(world.backups[g], g)
        invariant old(world).stages == map[] ==> world == old(world)
        decreases rest
      {
        StagesAreNoBackups(world);
        var g :| g in rest;
        if g in world.stages {
          o := CleanupStage(g);
          if !o.Done? { return; }
        } else if g in world.backups && !SnapshotValid(world.backups[g], g) {
          return Failure;
        }
        rest := rest - {g};
      }
    }

    /** `has_matching_local_generation`: temporary files are cleaned up and every backup
        is verified on the way to the first generation in one of these states whose
        receipt names the run; a receipt of another build stops the search. */
    method HasMatchingGeneration(run: RunId, accepted: set<JournalState>) returns (o: Outcome, found: bool)
      requires Valid() && forall s | s in accepted :: PostCommit(s)
      modifies this`clock, this`world, this`seen, this`probes
      ensures Valid() && old(seen) <= seen && old(clock) <= clock && old(probes) <= probes
      ensures SameButTemps(old(world), world)
      ensures o.Done? ==> Searched(world, run, accepted, build, found)
      ensures CanRecover(old(world), build) ==> CanRecover(world, build)
      ensures o.Done? ==> SmoothBetween(old(clock), clock)
      ensures SmoothBetween(old(clock), clock) && AllWhole(old(world).backups)
              && AllOwn(old(world), accepted, build) ==>
                o.Done?
    {
      hide Safe, Grows, SafePair, SnapshotValid, OwnReceipt, PostCommit, AllWhole, Passes, Accepts, SameButTemps;
      TempsReflexive(world);
      o, found := Done, false;
      var rest := world.backups.Keys;
      while rest != {}
        invariant Valid() && old(seen) <= seen && old(clock) <= clock && old(probes) <= probes && o.Done? && !found
        invariant SmoothBetween(old(clock), clock)
        invariant SameButTemps(old(world), world) && rest <= world.backups.Keys
        invariant forall g | g in world.backups && g !in rest :: Passes(world, g, run, accepted, build)
        decreases rest
      {
        var g :| g in rest;
        ghost var before := world;
        WholeStaysWhole(old(world), before, g, accepted, build);
        o, found := Inspect(g, run, accepted);
        OthersPass(before, world, g, before.backups.Keys - rest, run, accepted, build);
        TempsKeepRecoverable(old(world), world, build);
        if !o.Done? || found { return; }
        rest := rest - {g};
      }
      TempsKeepRecoverable(old(world), world, build);
      AllPass(world, run, accepted, build);
    }

    /** One generation on the way. */
    method Inspect(g: Generation, run: RunId, accepted: set<JournalState>) returns (o: Outcome, found: bool)
      requires Valid() && g in world.backups && forall s | s in accepted :: PostCommit(s)
      modifies this`clock, this`world, this`seen, this`probes
      ensures Valid() && old(seen) <= seen && old(clock) <= clock && old(probes) <= probes
      ensures world == old(world) || world == TempsCleaned(old(world), g)
      ensures o.Done? && found ==>
                Accepts(world, g, accepted) && OwnReceipt(world, g, build) && world.receipts[g].run == run
      ensures o.Done? && !found ==> Passes(world, g, run, accepted, build)
      ensures o.Done? ==> SmoothBetween(old(clock), clock)
      ensures SmoothBetween(old(clock), clock) && SnapshotValid(old(world).backups[g], g)
              && old(world).backups[g].journal.Some?
              && (Accepts(old(world), g, accepted) ==> OwnReceipt(old(world), g, build)) ==>
                o.Done?
    {
      hide Safe, Grows, SafePair, PostCommit;
      found := false;
      o := CleanTemps(g);
      if !o.Done? { return; }
      var d := world.backups[g];
      if !SnapshotValid(d, g) || d.journal.None? {
        return Failure, false;
      }
      WholeIsReadable(world, g);
      if Recovery(d.journal.value).None? {
        assert false;
      }
      if d.journal.value.state in accepted {
        if world.receipts[g].build != build {
          return Failure, false;
        }
        found := world.receipts[g].run == run;
      }
    }

    method CleanTemps(g: Generation) returns (o: Outcome)
      requires Valid() && g in world.backups
      modifies this`clock, this`world, this`seen, this`probes
      ensures Valid() && old(seen) <= seen && old(clock) <= clock && old(probes) <= probes
      ensures world == old(world) || world == TempsCleaned(old(world), g)
      ensures o.Done? ==> world == TempsCleaned(old(world), g)
      ensures o.Done? <==> SmoothBetween(old(clock), clock)
    {
      hide Safe, Grows;
      TempsAreSafe(world, g, false);
      o := Do(TempsCleaned(world, g));
    }

    // ---- Retiring a backup -------------------------------------------------

    /** `retire_backup`. */
    method RetireBackup(g: Generation, providerRevoked: bool) returns (o: Outcome)
      requires Valid()
      modifies this`clock, this`world, this`seen, this`probes
      ensures Valid() && old(seen) <= seen && old(clock) <= clock && old(probes) <= probes
      ensures world == old(world).(backups := world.backups, retirements := world.retirements)
      ensures world.backups - {g} == old(world).backups - {g}
      ensures world.backups != old(world).backups ==> g in world.retirements && providerRevoked
      ensures world.retirements != old(world).retirements ==>
                && providerRevoked && StateOf(old(world).backups, old(world).retirements, g) == Some(Reconciled)
                && OwnReceipt(old(world), g, build) && old(world).backups[g].manifest.Some?
                && var m := old(world).backups[g].manifest.value;
                   world.retirements == old(world).retirements[g := Retirement(old(world).receipts[g].client, m.envSha,
                                                                               m.configSha, build)]
      ensures Retirable(old(world), g) ==> Retirable(world, g)
      ensures o.Done? ==> g in world.retirements && g !in world.backups
      ensures o.Done? ==> providerRevoked && CanRetire(old(world), g, build)
      ensures CanRetire(old(world), g, build) ==> CanRetire(world, g, build)
      ensures o.Done? ==> SmoothBetween(old(clock), clock)
      ensures SmoothBetween(old(clock), clock) && providerRevoked && CanRetire(old(world), g, build) ==> o.Done?
    {
      hide Safe, Grows, SafePair;
      if !providerRevoked {
        return Failure;
      }
      if g in world.retirements {
        if world.retirements[g].build != build {
          return Failure;
        }
        o := FinishRetirement(g);
        return;
      }
      if StateOf(world.backups, world.retirements, g) == Some(Reconciled) {
        ReconciledGeneration(world, g);
      }
      if g !in world.backups || !SnapshotValid(world.backups[g], g) || world.backups[g].journal.None? {
        return Failure;
      }
      var d := world.backups[g];
      if !d.journal.value.state.Reconciled? || d.journal.value.client.None? {
        return Failure;
      }
      if !OwnReceipt(world, g, build) || world.receipts[g].client != d.journal.value.client.value {
        return Failure;
      }
      var retirement := Retirement(d.journal.value.client.value, d.manifest.value.envSha, d.manifest.value.configSha,
                                   build);
      RetirementIsSafe(world, g, retirement);
      o := Do(world.(retirements := world.retirements[g := retirement]));
      if !o.Done? { return; }
      o := Check(Reading);  // sync the retirement directory
      if !o.Done? { return; }
      o := FinishRetirement(g);
    }

    method RemoveEntry(g: Generation, name: FileName) returns (o: Outcome)
      requires Valid() && g in world.retirements && g in world.backups
      modifies this`clock, this`world, this`seen, this`probes
      ensures Valid() && old(seen) <= seen && old(clock) <= clock && old(probes) <= probes
      ensures g in world.backups && OnlyEntryOf(old(world), world, g)
      ensures o.Done? ==> world.backups[g] == old(world).backups[g].Without(name)
      ensures o.Done? <==> SmoothBetween(old(clock), clock)
    {
      hide Safe, Grows, SafePair;
      o := Done;
      if world.backups[g].Has(name) {
        RemovalIsSafe(world, g, world.backups[g := world.backups[g].Without(name)]);
        o := Do(world.(backups := world.backups[g := world.backups[g].Without(name)]));
      }
    }

    /** The four files of a retired backup go, in order. */
    method RemoveEntries(g: Generation) returns (o: Outcome)
      requires Valid() && g in world.retirements && g in world.backups
      modifies this`clock, this`world, this`seen, this`probes
      ensures Valid() && old(seen) <= seen && old(clock) <= clock && old(probes) <= probes
      ensures g in world.backups && g in world.retirements && OnlyEntryOf(old(world), world, g)
      ensures o.Done? <==> SmoothBetween(old(clock), clock)
    {
      hide Safe, Grows, SafePair, Valid, OnlyEntryOf;
      EntryAtMost(world, world, g);
      o := Done;
      var names := [HermesEnv, ConfigYaml, ManifestJson, JournalJson];
      for i := 0 to |names|
        invariant Valid() && old(seen) <= seen && old(clock) <= clock && old(probes) <= probes && o.Done?
        invariant SmoothBetween(old(clock), clock)
        invariant g in world.backups && g in world.retirements && OnlyEntryOf(old(world), world, g)
      {
        ghost var before := world;
        o := RemoveEntry(g, names[i]);
        EntriesCompose(old(world), before, world, g);
        if !o.Done? { return; }
      }
    }

    method RemoveDirectory(g: Generation) returns (o: Outcome)
      requires Valid() && g in world.retirements && g in world.backups
      modifies this`clock, this`world, this`seen, this`probes
      ensures Valid() && old(seen) <= seen && old(clock) <= clock && old(probes) <= probes
      ensures OnlyEntryOf(old(world), world, g) && (o.Done? ==> g !in world.backups)
      ensures o.Done? <==> SmoothBetween(old(clock), clock)
    {
      hide Safe, Grows, Valid;
      SafeNow();
      RemovalIsSafe(world, g, world.backups - {g});
      o := Do(world.(backups := world.backups - {g}));
    }

    /** `finish_retired_backup_cleanup`: the four files in order, then the directory. Any
        other entry, such as the temporary file of a journal write, stops it first. */
    method FinishRetirement(g: Generation) returns (o: Outcome)
      requires Valid() && g in world.retirements
      modifies this`clock, this`world, this`seen, this`probes
      ensures Valid() && old(seen) <= seen && old(clock) <= clock && old(probes) <= probes
      ensures world == old(world).(backups := world.backups) && world.backups - {g} == old(world).backups - {g}
      ensures o.Done? ==> g !in world.backups && (g in old(world).backups ==> !old(world).backups[g].temps)
      ensures g in old(world).backups && old(world).backups[g].temps ==> world == old(world)
      ensures g in world.backups ==> g in old(world).backups && world.backups[g].temps == old(world).backups[g].temps
      ensures o.Done? ==> SmoothBetween(old(clock), clock)
      ensures SmoothBetween(old(clock), clock) && (g in old(world).backups ==> !old(world).backups[g].temps) ==> o.Done?
    {
      hide Safe, Grows, SafePair, Valid, OnlyEntryOf;
      EntryAtMost(world, world, g);
      if g !in world.backups {
        o := Check(Reading);
        return;
      }
      if world.backups[g].temps {
        return Failure;
      }
      o := RemoveEntries(g);
      EntryAtMost(old(world), world, g);
      if !o.Done? { return; }
      o := Check(Reading);
      if !o.Done? { return; }
      ghost var emptied := world;
      o := RemoveDirectory(g);
      EntriesCompose(old(world), emptied, world, g);
      if !o.Done? { return; }
      o := Check(Reading);
    }

    // ---- The command loop --------------------------------------------------

    /** `run` for `apply`.  The QA status and the local match read before the lock was
        taken may be stale, so they are arbitrary inputs; the search for the match may
        already stop the run. It ends well only when the run has passed with its
        reconciled generation; it never gets past a generation of another build. */
    method RunApply(run: RunId, statusBefore: QaStatus, matchBefore: bool) returns (o: Outcome)
      requires Valid()
      modifies this`clock, this`world, this`seen, this`probes
      ensures Valid() && old(seen) <= seen && old(clock) <= clock && old(probes) <= probes
      ensures o.Done? ==> exists g :: Confirmed(world, g, run)
      ensures (forall g | Accepts(old(world), g, COMMITTED_STATES) && g in old(world).receipts ::
                 old(world).receipts[g].run != run)
              && (exists g :: Accepts(old(world), g, COMMITTED_STATES) && !OwnReceipt(old(world), g, build)) ==>
                !o.Done? && SameButTemps(old(world), world)
      ensures NewlyTested(old(world), world, probes)
      ensures CanRecover(old(world), build) ==> CanRecover(world, build)
      ensures SmoothBetween(old(clock), clock) && statusBefore.RunningRun? && Waiting(old(world), run)
              && (forall t :: run !in timeouts(t)) ==>
                (o.Done? <==> Startable(old(world), build))
    {
      hide Safe, Grows, SafePair, ResolvedAs, SnapshotValid, Confirmed, AllWhole, SameButTemps, CanRecover,
           NoneUnresolved, ConfigRewrite.UpdateYaml, OwnReceipt, AllOwn, Searched, Accepts, Tested;
      var matched;
      o, matched := HasMatchingGeneration(run, COMMITTED_STATES);
      WaitingStays(old(world), world, run, build);
      TempsKeepConfig(old(world), world);
      if !o.Done? { return; }
      SearchTells(old(world), world, run, build, matched);
      var intent := QaRunIntent(statusBefore, matchBefore);
      if intent.None? {
        return Failure;
      }
      o := Proceed(run, intent.value);
    }

    /** What `apply` does under the lock. */
    method Proceed(run: RunId, intent: Intent) returns (o: Outcome)
      requires Valid()
      modifies this`clock, this`world, this`seen, this`probes
      ensures Valid() && old(seen) <= seen && old(clock) <= clock && old(probes) <= probes
      ensures o.Done? ==> exists g :: Confirmed(world, g, run)
      ensures NewlyTested(old(world), world, probes)
      ensures CanRecover(old(world), build) ==> CanRecover(world, build)
      ensures SmoothBetween(old(clock), clock) && intent.Start? && Waiting(old(world), run)
              && (forall t :: run !in timeouts(t))
              && AllWhole(old(world).backups) && AllOwn(old(world), COMMITTED_STATES, build) ==>
                (o.Done? <==> ConfigRewrite.UpdateYaml(old(world).config).Some?)
    {
      hide Safe, Grows, SafePair, ResolvedAs, SnapshotValid, Confirmed, Repairing, CanRecover, ReconciledFor,
           UnresolvedIn, SameButTemps, Tested;
      var summary;
      if NoneUnresolved(world.backups, world.retirements) {
        NothingPending(world, build);
      }
      o, summary := Recover();
      RepairCommitsNothing(old(world), world);
      if !o.Done? { return; }
      if NoneUnresolved(old(world).backups, old(world).retirements) {
        OwnIsOfFiles(old(world), world, build);
      }
      o := Decide(run, intent, summary);
    }

    /** The QA run is read again; it may have been timed out meanwhile. */
    method ReadRunAgain(run: RunId, summary: set<RunId>) returns (o: Outcome)
      requires Valid() && NoneUnresolved(world.backups, world.retirements)
      requires forall r | r in summary :: exists g :: ReconciledFor(world, g, r)
      modifies this`clock, this`world, this`seen, this`probes
      ensures Valid() && old(seen) <= seen && old(clock) <= clock && old(probes) <= probes
      ensures world == old(world).(runs := world.runs)
      ensures forall r | r in summary :: exists g :: ReconciledFor(world, g, r)
      ensures CanRecover(old(world), build) ==> CanRecover(world, build)
      ensures AllOwn(old(world), {Reconciled}, build) ==> AllOwn(world, {Reconciled}, build)
      ensures Waiting(old(world), run) && (forall t :: run !in timeouts(t)) ==> Waiting(world, run)
      ensures o.Done? <==> SmoothBetween(old(clock), clock)
    {
      hide Safe, Grows, CanRecover, ReconciledFor, AllOwn, NoneUnresolved;
      o := Check(Reading);
      if !o.Done? { return; }
      Elapse();
      StillReconciled(old(world), world, summary);
      RunsDoNotMatter(old(world), world, build);
      StillOwn(old(world), world, build);
    }

    /** The QA run is read again, and decides with what the recovery left. */
    method Decide(run: RunId, intent: Intent, summary: set<RunId>) returns (o: Outcome)
      requires Valid() && NoneUnresolved(world.backups, world.retirements)
      requires forall r | r in summary :: exists g :: ReconciledFor(world, g, r)
      modifies this`clock, this`world, this`seen, this`probes
      ensures Valid() && old(seen) <= seen && old(clock) <= clock && old(probes) <= probes
      ensures o.Done? ==> exists g :: Confirmed(world, g, run)
      ensures NewlyTested(old(world), world, probes)
      ensures CanRecover(old(world), build) ==> CanRecover(world, build)
      ensures SmoothBetween(old(clock), clock) && intent.Start? && Waiting(old(world), run)
              && (forall t :: run !in timeouts(t))
              && AllWhole(old(world).backups) && AllOwn(old(world), {Reconciled}, build) ==>
                (o.Done? <==> ConfigRewrite.UpdateYaml(old(world).config).Some?)
    {
      hide Safe, Grows, SafePair, SnapshotValid, Confirmed, CanRecover, ReconciledFor, UnresolvedIn, SameButTemps,
           AllWhole, ConfigRewrite.UpdateYaml, Tested, Valid, NoneUnresolved, AllOwn;
      o := ReadRunAgain(run, summary);
      if !o.Done? { return; }
      if run !in world.runs {
        return Failure;
      }
      var status := StatusName(world.runs[run]);
      ghost var before := world;
      var reconciled;
      o, reconciled := ReconciledHere(run, summary);
      TempsKeepConfig(before, world);
      if !o.Done? { return; }
      match PostLockDecision(status, reconciled) {
        case None => return Failure;
        case Some(Complete) => return Done;
        case Some(StartNow) =>
          if !intent.Start? {
            return Failure;
          }
      }
      o := StartRun(run);
    }

    /** The run is started: preflight, then the cutover. */
    method StartRun(run: RunId) returns (o: Outcome)
      requires Valid() && NoneUnresolved(world.backups, world.retirements)
      requires run in world.runs && world.runs[run].Running?
      modifies this`clock, this`world, this`seen, this`probes
      ensures Valid() && old(seen) <= seen && old(clock) <= clock && old(probes) <= probes
      ensures o.Done? ==> exists g :: Confirmed(world, g, run)
      ensures NewlyTested(old(world), world, probes)
      ensures o.Done? || world.committed != old(world).committed ==>
                Probe(old(clock), Preflight, old(world).env, old(world).config, old(world).containerUp) in probes
      ensures CanRecover(old(world), build) ==> CanRecover(world, build)
      ensures run in world.runs
      ensures o.Failure? && world.committed == old(world).committed
              && FailedOnce(old(clock), clock, old(world).config) ==>
                world.env == old(world).env && world.config == old(world).config && !world.runs[run].Running?
      ensures o.Done? ==> SmoothBetween(old(clock), clock)
      ensures SmoothBetween(old(clock), clock) ==> (o.Done? <==> ConfigRewrite.UpdateYaml(old(world).config).Some?)
    {
      hide Safe, Grows, SafePair, SnapshotValid, Confirmed, ConfigRewrite.UpdateYaml, CandidatePair,
           NewlyTested, TriedFor, Valid, StateOf, NoneUnresolved, CanRecover;
      SafeNow();
      RunningIsRunnable(world, run);
      o := Check(Preflight);
      ghost var start := clock;
      if o.Failure? {
        o := ReportFailed(run);
        RestIsSmooth(old(clock), start, clock, old(world).config);
        RunsDoNotMatter(old(world), world, build);
        NothingNew(old(world), world, probes);
        return if o.Crash? then Crash else Failure;
      }
      NothingNew(old(world), world, probes);
      if o.Crash? { return; }
      var verdict, g := Apply(run);
      RestIsSmooth(old(clock), start, clock, old(world).config);
      TriedIsTested(old(world), world, probes, start, clock, g, run);
      if verdict.Applied? {
        SafeNow();
        SwitchedIsConfirmed(world, g, run);
        return Done;
      }
      o := if verdict.Died? then Crash else Failure;
    }

    /** Whether the run's generation was reconciled, just now or before. */
    method ReconciledHere(run: RunId, summary: set<RunId>) returns (o: Outcome, found: bool)
      requires Valid() && NoneUnresolved(world.backups, world.retirements)
      requires forall r | r in summary :: exists g :: ReconciledFor(world, g, r)
      modifies this`clock, this`world, this`seen, this`probes
      ensures Valid() && old(seen) <= seen && old(clock) <= clock && old(probes) <= probes
      ensures SameButTemps(old(world), world)
      ensures NoneUnresolved(world.backups, world.retirements) && world.runs == old(world).runs
      ensures o.Done? && found ==> exists g :: Confirmed(world, g, run)
      ensures CanRecover(old(world), build) ==> CanRecover(world, build)
      ensures world.config == old(world).config
      ensures o.Done? ==> SmoothBetween(old(clock), clock)
      ensures SmoothBetween(old(clock), clock) && AllWhole(old(world).backups)
              && AllOwn(old(world), {Reconciled}, build) ==>
                o.Done?
    {
      hide Safe, Grows, SafePair, SnapshotValid, Confirmed;
      o, found := Done, run in summary;
      if found {
        var g :| ReconciledFor(world, g, run);
        ReconciledIsConfirmed(world, g);
        return;
      }
      o, found := HasMatchingGeneration(run, {Reconciled});
      if o.Done? && found {
        ghost var g :| Accepts(world, g, {Reconciled}) && OwnReceipt(world, g, build) && world.receipts[g].run == run;
        ReconciledIsConfirmed(world, g);
      }
      forall g | g in world.backups ensures !UnresolvedIn(world.backups, world.retirements, g) {
        assert !UnresolvedIn(old(world).backups, world.retirements, g);
      }
    }

    /** One invocation of the helper, or what happens to it between two. */
    method Execute(command: Command) returns (o: Outcome)
      requires Valid()
      modifies this
      ensures Valid() && old(seen) <= seen && old(clock) <= clock && old(probes) <= probes
      ensures NewlyTested(old(world), world, probes)
      ensures !command.UpgradeCommand? ==> build == old(build)
      ensures Repeatable(command) && CanRecover(old(world), build) ==> CanRecover(world, build)
    {
      hide Safe, Grows, SafePair, CanRecover, SnapshotValid, Tested;
      o := Done;
      match command {
        case ApplyCommand(run, status, matching) => o := RunApply(run, status, matching);
        case PreflightCommand =>
          var summary;
          o, summary := Recover();
        case RetireCommand(g, revoked) => o := RetireBackup(g, revoked);
        case ArmCommand(run) =>
          if run !in world.runs {
            ArmingIsSafe(world, run);
            o := Do(world.(runs := world.runs[run := Running]));
            RunsDoNotMatter(old(world), world, build);
          }
        case UpgradeCommand(other) => build := other;
      }
    }

    /** Any sequence of helper invocations, each started again after a crash, possibly
        with a new binary: every world on the way is safe, and nothing final in one is ever
        taken back. */
    method Life(commands: seq<Command>)
      requires Valid()
      modifies this
      ensures Valid() && old(seen) <= seen
      ensures forall w | w in seen :: Safe(w) && Grows(w, world)
      ensures NewlyTested(old(world), world, probes)
    {
      hide Safe, Grows, SafePair, NewlyTested;
      NothingNew(world, world, probes);
      for i := 0 to |commands|
        invariant Valid() && old(seen) <= seen && NewlyTested(old(world), world, probes)
      {
        ghost var w, p := world, probes;
        var _ := Execute(commands[i]);
        GrewSince(w);
        TestedStays(old(world), w, world, p, probes);
      }
    }
  }

  // ---- Taking up again what a crash broke off ----------------------------------

  /** Applications, recoveries and arming, however they end. */
  predicate Repeatable(c: Command) {
    c.ApplyCommand? || c.PreflightCommand? || c.ArmCommand?
  }

  /** From wherever crashes left any applications and recoveries, crashed recoveries
      among them, a recovery whose steps go well leaves nothing unresolved. */
  method RecoverAfterAll(host: Helper, commands: seq<Command>) returns (again: Helper, o: Outcome)
    requires host.Valid() && CanRecover(host.world, host.build) && forall c | c in commands :: Repeatable(c)
    modifies host
    ensures again.Valid() && o.Done? && Settled(again.world)
    ensures forall g | Unresolved(host.world, g) :: g in again.world.backups && ResolvedAs(host.world, again.world, g)
  {
    hide Safe, Grows, CanRecover, ResolvedAs, Settled, Repairing, SnapshotValid;
    for i := 0 to |commands|
      invariant host.Valid() && CanRecover(host.world, host.build)
    {
      var _ := host.Execute(commands[i]);
    }
    again := new Helper.On(_ => Smooth, host.timeouts, host.build, host.world);
    var summary;
    o, summary := again.Recover();
  }

  /** From wherever crashes left its retirement, however often, a rerun whose steps go well
      ends with the generation gone and its receipt kept. */
  method RetireAfterAll(host: Helper, g: Generation, tries: nat) returns (again: Helper, o: Outcome)
    requires host.Valid() && CanRetire(host.world, g, host.build)
    modifies host
    ensures again.Valid() && o.Done? && g !in again.world.backups && g in again.world.retirements
    ensures again.world.backups - {g} == old(host.world).backups - {g}
  {
    hide Safe, Grows, CanRetire, SnapshotValid, Retirable, StateOf;
    for i := 0 to tries
      invariant host.Valid() && CanRetire(host.world, g, host.build)
      invariant host.world.backups - {g} == old(host.world).backups - {g}
    {
      var _ := host.RetireBackup(g, true);
    }
    again := new Helper.On(_ => Smooth, host.timeouts, host.build, host.world);
    o := again.RetireBackup(g, true);
  }

  // ---- Hosts on which the helper gets stuck ----------------------------------

  const FORMER := EnvFile(Bearer(0), "")

  /** The first cutover is reconciled, and its retirement receipt has just been written. */
  const RETIRING := World(
    FORMER, "", true, map[],
    map[0 := Directory(Some(FORMER), Some(""), Some(Manifest(0, Sha256(FORMER), Sha256(""))),
                       Some(Journal(Reconciled, Some(HermesCutover(0)), Some(0))), false)],
    Some(0), map[0 := Receipt(0, 0, 0)], map[0 := Retirement(0, Sha256(FORMER), Sha256(""), 0)],
    map[0 := Client(HermesCutover(0), true)], map[0 := Passed(0)], 1, 1, map[0 := 0], {})

  lemma RetiringHostIsSafe()
    ensures Safe(RETIRING) && CanRecover(RETIRING, 0) && CanRetire(RETIRING, 0, 0)
  {
    assert SafeClients(RETIRING.env, RETIRING.clients, RETIRING.nextClient, RETIRING.nextGeneration);
  }

  lemma HalfRetired(w: World)
    requires w == RETIRING.(backups := w.backups) && 0 in w.backups && w.backups - {0} == RETIRING.backups - {0}
    requires w.backups[0] == RETIRING.backups[0].Without(HermesEnv)
    ensures Settled(w) && !CanRecover(w, 0) && CanRetire(w, 0, 0)
  {
    assert (w.backups - {0}).Keys == w.backups.Keys - {0} && (RETIRING.backups - {0}).Keys == {};
    assert w.backups.Keys == {0};
    assert !SnapshotValid(w.backups[0], 0);
  }

  /** The helper dies after the first file of a retired backup is gone: from then on no
      recovery succeeds, however well its steps go, until the retirement is taken up again. */
  method StopHalfRetired() returns (host: Helper, recovery: Outcome, retirement: Outcome)
    ensures host.Valid() && !recovery.Done? && retirement.Done?
  {
    hide Safe, Grows, Settled, CanRecover, CanRetire, Repairing, AllWhole, Directory.Without, Retirable;
    RetiringHostIsSafe();
    host := new Helper.On(_ => Smooth, _ => {}, 0, RETIRING);
    var removal := host.RemoveEntry(0, HermesEnv);
    HalfRetired(host.world);
    var summary;
    recovery, summary := host.Recover();
    retirement := host.RetireBackup(0, true);
  }

  /** The helper is replaced while a committed generation is still in the backup
      directory: the new one can neither apply for another run nor retire it. */
  method UpgradeTooEarly() returns (host: Helper, application: Outcome, retirement: Outcome)
    ensures host.Valid() && !application.Done? && !retirement.Done?
  {
    hide Safe, Grows;
    RetiringHostIsSafe();
    host := new Helper.On(_ => Smooth, _ => {}, 1, RETIRING);
    assert Accepts(RETIRING, 0, COMMITTED_STATES) && !OwnReceipt(RETIRING, 0, 1);
    application := host.RunApply(1, RunningRun, false);
    retirement := host.RetireBackup(0, true);
  }

  /** A journal write died before its rename: the recovery succeeds and leaves the
      temporary file, which stops the retirement. */
  method LeaveTempBehind() returns (host: Helper, recovery: Outcome, retirement: Outcome)
    ensures host.Valid() && recovery.Done? && !retirement.Done?
  {
    hide Safe, Grows;
    RetiringHostIsSafe();
    TempsAreSafe(RETIRING, 0, true);
    host := new Helper.On(_ => Smooth, _ => {}, 0, TempLeft(RETIRING, 0));
    var summary;
    recovery, summary := host.Recover();
    retirement := host.RetireBackup(0, true);
  }
}
