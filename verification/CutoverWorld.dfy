/** The durable world of the Hermes cutover helper: the two live configuration
    files, the backup generations with their journals, the receipts, the
    downstream clients and the QA runs kept by the gateway, and the container.

    Every atomic file replacement, journal write, remote call or container
    command of the helper maps one world to the next.  `Safe` is the crash
    invariant: it holds at every boundary between two such steps. */
module CutoverWorld {
  import opened Common
  import ConfigRewrite

  type Generation = nat
  type ClientId = nat
  type RunId = nat

  // The commit a helper binary was built from.
  type Build = nat

  // Tokens are opaque and distinct: a bearer is named after the client it was issued to.
  datatype Credential = Provider(secret: string) | Bearer(client: ClientId)
  datatype EnvFile = EnvFile(credential: Credential, rest: string)

  // Hashes are opaque and distinct.
  datatype Digest<T> = Sha256(content: T)

  datatype Label = HermesCutover(generation: Generation) | OtherLabel(text: string)
  datatype Client = Client(name: Label, active: bool)

  datatype JournalState =
    | ClientOperationPrepared | CandidateReady | CandidateApplied
    | Committed | ReconcilePending | Reconciled
    | RollbackCleanupPending | RolledBack | Recovered

  datatype Journal = Journal(state: JournalState, name: Option<Label>, client: Option<ClientId>)
  datatype Manifest = Manifest(generation: Generation, envSha: Digest<EnvFile>, configSha: Digest<string>)
  datatype Receipt = Receipt(client: ClientId, run: RunId, build: Build)
  datatype Retirement = Retirement(client: ClientId, envSha: Digest<EnvFile>, configSha: Digest<string>, build: Build)

  datatype FileName = HermesEnv | ConfigYaml | ManifestJson | JournalJson

  /** `temps`: an interrupted replacement left its temporary file behind. */
  datatype Directory = Directory(env: Option<EnvFile>, config: Option<string>,
                                 manifest: Option<Manifest>, journal: Option<Journal>, temps: bool)
  {
    predicate Has(f: FileName) {
      match f
      case HermesEnv => env.Some?
      case ConfigYaml => config.Some?
      case ManifestJson => manifest.Some?
      case JournalJson => journal.Some?
    }

    function Without(f: FileName): Directory {
      match f
      case HermesEnv => this.(env := None)
      case ConfigYaml => this.(config := None)
      case ManifestJson => this.(manifest := None)
      case JournalJson => this.(journal := None)
    }
  }

  const EMPTY_DIRECTORY := Directory(None, None, None, None, false)

  datatype RunStatus = Running | Passed(generation: Generation) | Failed

  datatype World = World(
    env: EnvFile,
    config: string,
    containerUp: bool,
    stages: map<Generation, Directory>,
    backups: map<Generation, Directory>,
    last: Option<Generation>,            // the generation published most recently
    receipts: map<Generation, Receipt>,
    retirements: map<Generation, Retirement>,
    clients: map<ClientId, Client>,
    runs: map<RunId, RunStatus>,
    nextGeneration: Generation,
    nextClient: ClientId,
    committed: map<Generation, RunId>,   // history: every generation whose journal reached `committed`
    failedReports: set<RunId>            // history: every run whose FAILED report was accepted
  )

  // ---- Journal states ------------------------------------------------------

  predicate Terminal(s: JournalState) {
    s.Reconciled? || s.RolledBack? || s.Recovered?
  }

  predicate PreCommit(s: JournalState) {
    s.ClientOperationPrepared? || s.CandidateReady? || s.CandidateApplied?
  }

  predicate PostCommit(s: JournalState) {
    s.Committed? || s.ReconcilePending? || s.Reconciled?
  }

  datatype RecoveryAction = NoAction | ReconcileCommitted | RollbackAndRevoke | RevokeAfterRollback

  /** `recovery_action`: `None` is the journal error that stops the recovery. */
  function Recovery(j: Journal): (r: Option<RecoveryAction>)
    ensures r.None? <==> j.state.RollbackCleanupPending? && j.client.None?
    ensures r == Some(NoAction) <==> Terminal(j.state)
  {
    match j.state
    case Reconciled => Some(NoAction)
    case RolledBack => Some(NoAction)
    case Recovered => Some(NoAction)
    case Committed => Some(ReconcileCommitted)
    case ReconcilePending => Some(ReconcileCommitted)
    case RollbackCleanupPending => if j.client.None? then None else Some(RevokeAfterRollback)
    case ClientOperationPrepared => Some(RollbackAndRevoke)
    case CandidateReady => Some(RollbackAndRevoke)
    case CandidateApplied => Some(RollbackAndRevoke)
  }

  // ---- Snapshots and candidates --------------------------------------------

  /** `verify_snapshot`: the three files are there and the manifest matches them. */
  predicate SnapshotValid(d: Directory, g: Generation) {
    d.env.Some? && d.config.Some?
    && d.manifest == Some(Manifest(g, Sha256(d.env.value), Sha256(d.config.value)))
  }

  /** The `.env` the candidate is switched to: only the credential changes. */
  function CandidateEnv(env: EnvFile, id: ClientId): EnvFile {
    env.(credential := Bearer(id))
  }

  predicate IsCandidateConfig(before: string, after: string) {
    ConfigRewrite.UpdateYaml(before) == Some(after)
  }

  /** The live pair is the one the generation took its snapshot of. */
  predicate SnapshotPair(env: EnvFile, config: string, d: Directory) {
    d.env == Some(env) && d.config == Some(config)
  }

  /** The live pair is the one the generation switches to, with the token of client `id`. */
  predicate CandidatePair(env: EnvFile, config: string, d: Directory, id: ClientId) {
    d.env.Some? && d.config.Some?
    && env == CandidateEnv(d.env.value, id) && IsCandidateConfig(d.config.value, config)
  }

  // ---- The crash invariant -------------------------------------------------

  type Clients = map<ClientId, Client>
  type Backups = map<Generation, Directory>
  type Retirements = map<Generation, Retirement>

  predicate ActiveClient(clients: Clients, id: ClientId) {
    id in clients && clients[id].active
  }

  /** The client whose token the file holds, if it holds one, can authenticate. */
  predicate TokenLive(clients: Clients, e: EnvFile) {
    e.credential.Bearer? ==> ActiveClient(clients, e.credential.client)
  }

  /** The journal state of a generation that is not being retired. */
  function StateOf(backups: Backups, retirements: Retirements, g: Generation): Option<JournalState> {
    if g in backups && g !in retirements && backups[g].journal.Some? then Some(backups[g].journal.value.state)
    else None
  }

  predicate UnresolvedIn(backups: Backups, retirements: Retirements, g: Generation) {
    var s := StateOf(backups, retirements, g);
    s.Some? && !Terminal(s.value)
  }

  predicate Unresolved(w: World, g: Generation) {
    UnresolvedIn(w.backups, w.retirements, g)
  }

  /** Committed, but the QA server may not have been told. */
  predicate PassPending(backups: Backups, retirements: Retirements, g: Generation) {
    var s := StateOf(backups, retirements, g);
    s == Some(Committed) || s == Some(ReconcilePending)
  }

  ghost predicate SafeClients(env: EnvFile, clients: Clients, nextClient: ClientId, nextGeneration: Generation) {
    && TokenLive(clients, env)
    && (forall id | id in clients :: id < nextClient)
    && (forall id | id in clients && clients[id].name.HermesCutover? :: clients[id].name.generation < nextGeneration)
    && (forall a, b | a in clients && b in clients && clients[a].name.HermesCutover?
                      && clients[a].name == clients[b].name ::
          a == b)
  }

  /** A generation that is not being retired is complete, only the newest one may
      be unresolved, and a receipt backs a journal that reached `committed`. */
  ghost predicate SafeBackup(d: Directory, g: Generation, retiring: bool, newest: bool,
                             receipts: map<Generation, Receipt>, committed: map<Generation, RunId>) {
    && (!retiring ==>
          && SnapshotValid(d, g) && d.journal.Some?
          && (Terminal(d.journal.value.state) || newest)
          && (PostCommit(d.journal.value.state) ==>
                g in receipts && g in committed && committed[g] == receipts[g].run
                && d.journal.value.client == Some(receipts[g].client))
          && (g in committed ==> PostCommit(d.journal.value.state)))
    && (retiring && d.journal.Some? ==>
          d.journal.value.state.Reconciled? && g in receipts && d.journal.value.client == Some(receipts[g].client))
  }

  ghost predicate SafeBackups(backups: Backups, stages: map<Generation, Directory>, retirements: Retirements,
                              last: Option<Generation>, receipts: map<Generation, Receipt>,
                              committed: map<Generation, RunId>, nextGeneration: Generation) {
    && (forall g | g in backups :: g < nextGeneration && g !in stages)
    && (forall g | g in backups :: SafeBackup(backups[g], g, g in retirements, last == Some(g), receipts, committed))
    && (forall g | g in stages :: g < nextGeneration)
    && (forall g | g in retirements :: g < nextGeneration && g in receipts)
    && (last.Some? ==> last.value < nextGeneration)
  }

  /** No client labelled after generation `g` is the one in its snapshot. */
  ghost predicate SnapshotPredatesClients(clients: Clients, g: Generation, d: Directory) {
    forall id | id in clients && clients[id].name == HermesCutover(g) ::
      d.env.Some? && d.env.value.credential != Bearer(id)
  }

  predicate JournalClient(clients: Clients, g: Generation, j: Journal) {
    j.client.Some? && j.client.value in clients && clients[j.client.value].name == HermesCutover(g)
  }

  /** How the live pair relates to the newest generation, by journal state. */
  ghost predicate SafePair(env: EnvFile, config: string, d: Directory, g: Generation, clients: Clients)
    requires d.env.Some? && d.config.Some? && d.journal.Some?
  {
    var j := d.journal.value;
    && j.name == Some(HermesCutover(g))
    && match j.state
       case ClientOperationPrepared =>
         SnapshotPair(env, config, d) && j.client.None? && SnapshotPredatesClients(clients, g, d)
       case CandidateReady | CandidateApplied =>
         && JournalClient(clients, g, j) && SnapshotPredatesClients(clients, g, d)
         && TokenLive(clients, d.env.value)
         && (env == d.env.value || env == CandidateEnv(d.env.value, j.client.value))
         && (config == d.config.value || IsCandidateConfig(d.config.value, config))
         && (!ActiveClient(clients, j.client.value) ==> SnapshotPair(env, config, d))
       case Committed | ReconcilePending | Reconciled =>
         JournalClient(clients, g, j) && CandidatePair(env, config, d, j.client.value)
       case RollbackCleanupPending =>
         JournalClient(clients, g, j) && SnapshotPair(env, config, d) && SnapshotPredatesClients(clients, g, d)
       case RolledBack | Recovered =>
         SnapshotPair(env, config, d)
  }

  /** Between transactions Hermes runs; a generation before its commit point may have stopped it. */
  ghost predicate SafeNewest(env: EnvFile, config: string, containerUp: bool, backups: Backups,
                             retirements: Retirements, last: Option<Generation>, clients: Clients) {
    if last.Some? && StateOf(backups, retirements, last.value).Some? then
      var d := backups[last.value];
      d.env.Some? && d.config.Some? && SafePair(env, config, d, last.value, clients)
      && (PreCommit(d.journal.value.state) || containerUp)
    else containerUp
  }

  /** The active Hermes clients still to be revoked are among `pending`. */
  ghost predicate OthersIn(clients: Clients, keep: ClientId, pending: set<ClientId>) {
    forall id | ActiveClient(clients, id) && clients[id].name.HermesCutover? :: id == keep || id in pending
  }

  ghost predicate SafeRuns(committed: map<Generation, RunId>, runs: map<RunId, RunStatus>, failedReports: set<RunId>,
                           backups: Backups, retirements: Retirements, nextGeneration: Generation) {
    && (forall g | g in committed :: g < nextGeneration && committed[g] in runs)
    && (forall g | g in committed :: PassPending(backups, retirements, g) || runs[committed[g]] == Passed(g))
    && (forall g, h | g in committed && h in committed && committed[g] == committed[h] :: g == h)
    && (forall r | r in failedReports :: r in runs && runs[r].Failed?)
    && (forall g | g in committed :: committed[g] !in failedReports)
    && (forall g | g in retirements :: g in committed)
    && (forall r | r in runs && runs[r].Passed? ::
          runs[r].generation in committed && committed[runs[r].generation] == r)
  }

  /** The QA run the generation was committed for has been told. */
  predicate ToldOf(committed: map<Generation, RunId>, runs: map<RunId, RunStatus>, g: Generation) {
    g in committed && committed[g] in runs && runs[committed[g]] == Passed(g)
  }

  /** The receipts of committed generations stay; and once PASS was told of the newest
      generation no other Hermes client is authorized. */
  ghost predicate SafeRevocation(last: Option<Generation>, receipts: map<Generation, Receipt>,
                                 committed: map<Generation, RunId>, runs: map<RunId, RunStatus>, clients: Clients) {
    && (forall g | g in committed :: g in receipts && receipts[g].run == committed[g])
    && (last.Some? && ToldOf(committed, runs, last.value) && last.value in receipts ==>
          OthersIn(clients, receipts[last.value].client, {}))
  }

  ghost predicate Safe(w: World) {
    && SafeClients(w.env, w.clients, w.nextClient, w.nextGeneration)
    && SafeBackups(w.backups, w.stages, w.retirements, w.last, w.receipts, w.committed, w.nextGeneration)
    && SafeNewest(w.env, w.config, w.containerUp, w.backups, w.retirements, w.last, w.clients)
    && SafeRuns(w.committed, w.runs, w.failedReports, w.backups, w.retirements, w.nextGeneration)
    && SafeRevocation(w.last, w.receipts, w.committed, w.runs, w.clients)
  }

  /** Only clients labelled after a cutover are issued or revoked. */
  ghost predicate SparesOthers(before: Clients, after: Clients) {
    && (forall id | id in before && !before[id].name.HermesCutover? :: id in after && after[id] == before[id])
    && (forall id | id in after && id !in before :: after[id].name.HermesCutover?)
  }

  /** What no step takes back: a commitment, an accepted FAILED report, a PASS, a revocation
      and a retirement receipt stay, a backup goes only behind such a receipt, and the clients
      of others are left alone. */
  ghost predicate Grows(w: World, v: World) {
    && (forall g | g in w.committed :: g in v.committed && v.committed[g] == w.committed[g])
    && w.failedReports <= v.failedReports
    && (forall r | r in w.runs :: r in v.runs && (w.runs[r].Passed? ==> v.runs[r] == w.runs[r]))
    && (forall id | id in w.clients :: id in v.clients && v.clients[id].name == w.clients[id].name
                                       && (!w.clients[id].active ==> !v.clients[id].active))
    && SparesOthers(w.clients, v.clients)
    && (forall g | g in w.retirements :: g in v.retirements && v.retirements[g] == w.retirements[g])
    && (forall g | g in w.backups :: g in v.backups || g in v.retirements)
  }

  lemma GrowsItself(w: World)
    ensures Grows(w, w)
  {}

  lemma SameHistoryGrows(w: World, v: World)
    requires v.committed == w.committed && v.failedReports == w.failedReports && v.runs == w.runs
    requires v.clients == w.clients && v.retirements == w.retirements && w.backups.Keys <= v.backups.Keys
    ensures Grows(w, v)
  {}

  lemma GrowthComposes(a: World, b: World, c: World)
    requires Grows(a, b) && Grows(b, c)
    ensures Grows(a, c)
  {}

  // ---- The helper's steps --------------------------------------------------

  ghost predicate NoneUnresolved(backups: Backups, retirements: Retirements) {
    forall g | g in backups :: !UnresolvedIn(backups, retirements, g)
  }

  /** `write_journal`.  Reaching `committed` is remembered with the QA run of the receipt. */
  function JournalWritten(w: World, g: Generation, state: JournalState, client: Option<ClientId>): World
    requires g in w.backups
    requires state.Committed? ==> g in w.receipts
  {
    var d := w.backups[g].(journal := Some(Journal(state, Some(HermesCutover(g)), client)));
    w.(backups := w.backups[g := d],
       committed := if state.Committed? then w.committed[g := w.receipts[g].run] else w.committed)
  }

  /** A journal write that died before its rename. */
  function TempLeft(w: World, g: Generation): World
    requires g in w.backups
  {
    w.(backups := w.backups[g := w.backups[g].(temps := true)])
  }

  /** `cleanup_atomic_temps`. */
  function TempsCleaned(w: World, g: Generation): World
    requires g in w.backups
  {
    w.(backups := w.backups[g := w.backups[g].(temps := false)])
  }

  function StageCreated(w: World): World {
    w.(stages := w.stages[w.nextGeneration := EMPTY_DIRECTORY], nextGeneration := w.nextGeneration + 1)
  }

  function Staged(w: World, g: Generation, d: Directory): World {
    w.(stages := w.stages[g := d])
  }

  /** The rename that turns a complete staging directory into a backup generation. */
  function Published(w: World, g: Generation): World
    requires g in w.stages
  {
    w.(stages := w.stages - {g}, backups := w.backups[g := w.stages[g]], last := Some(g))
  }

  function SnapshotOf(w: World, g: Generation): Directory {
    Directory(Some(w.env), Some(w.config), Some(Manifest(g, Sha256(w.env), Sha256(w.config))),
              Some(Journal(ClientOperationPrepared, Some(HermesCutover(g)), None)), false)
  }

  function Issued(w: World, g: Generation): World {
    w.(clients := w.clients[w.nextClient := Client(HermesCutover(g), true)], nextClient := w.nextClient + 1)
  }

  function Revoked(w: World, id: ClientId): World
    requires id in w.clients
  {
    w.(clients := w.clients[id := w.clients[id].(active := false)])
  }

  function ReceiptWritten(w: World, g: Generation, r: Receipt): World {
    w.(receipts := w.receipts[g := r])
  }

  function TimedOut(w: World, expired: set<RunId>): World {
    w.(runs := map r | r in w.runs :: if r in expired && w.runs[r].Running? then Failed else w.runs[r])
  }

  function FailReported(w: World, r: RunId): World {
    if r in w.runs && w.runs[r].Running? then w.(runs := w.runs[r := Failed], failedReports := w.failedReports + {r})
    else w
  }

  function PassReported(w: World, r: RunId, g: Generation): World {
    w.(runs := w.runs[r := Passed(g)])
  }

  /** Every Hermes client but `keep` has lost its authorization. */
  ghost predicate OthersRevoked(w: World, keep: ClientId) {
    forall id | ActiveClient(w.clients, id) && w.clients[id].name.HermesCutover? :: id == keep
  }

  lemma AllAreStillIn(clients: Clients, keep: ClientId, pending: set<ClientId>)
    requires forall id | id in clients && id != keep && ActiveClient(clients, id) && clients[id].name.HermesCutover? ::
               id in pending
    ensures OthersIn(clients, keep, pending)
  {}

  lemma RevokingNarrows(w: World, keep: ClientId, pending: set<ClientId>, id: ClientId)
    requires OthersIn(w.clients, keep, pending) && id in w.clients
    ensures OthersIn(Revoked(w, id).clients, keep, pending - {id})
  {}

  lemma NoneLeftToRevoke(w: World, keep: ClientId)
    requires OthersIn(w.clients, keep, {})
    ensures OthersRevoked(w, keep)
  {}

  // ---- What each step needs to keep the world safe -------------------------

  lemma StageCreationIsSafe(w: World)
    requires Safe(w)
    ensures Safe(StageCreated(w)) && Grows(w, StageCreated(w))
  {
    hide Grows, SafeNewest, SafeRevocation, SafeBackup, PassPending;
    SameHistoryGrows(w, StageCreated(w));
  }

  lemma StagingIsSafe(w: World, g: Generation, d: Directory)
    requires Safe(w) && g in w.stages
    ensures Safe(Staged(w, g, d)) && Grows(w, Staged(w, g, d))
  {
    hide Grows, SafeNewest, SafeRevocation, SafeBackup, SafeRuns, SafeClients;
    SameHistoryGrows(w, Staged(w, g, d));
  }

  lemma UnstagingIsSafe(w: World, g: Generation)
    requires Safe(w)
    ensures Safe(w.(stages := w.stages - {g})) && Grows(w, w.(stages := w.stages - {g}))
  {
    hide Grows, SafeNewest, SafeRevocation, SafeBackup, SafeRuns, SafeClients;
    SameHistoryGrows(w, w.(stages := w.stages - {g}));
  }

  lemma PublishIsSafe(w: World, g: Generation)
    requires Safe(w) && NoneUnresolved(w.backups, w.retirements)
    requires g in w.stages && w.stages[g] == SnapshotOf(w, g) && g !in w.committed && g !in w.retirements
    requires forall id | id in w.clients :: w.clients[id].name != HermesCutover(g)
    ensures Safe(Published(w, g)) && Grows(w, Published(w, g))
  {
    hide Grows, SafeClients, SafeBackups, SafeRuns, IsCandidateConfig, UnresolvedIn, PassPending;
    SameHistoryGrows(w, Published(w, g));
    PublishKeepsBackups(w, g);
    PublishKeepsRuns(w, g);
  }

  lemma PublishKeepsBackups(w: World, g: Generation)
    requires SafeBackups(w.backups, w.stages, w.retirements, w.last, w.receipts, w.committed, w.nextGeneration)
    requires NoneUnresolved(w.backups, w.retirements)
    requires g in w.stages && w.stages[g] == SnapshotOf(w, g) && g !in w.committed && g !in w.retirements
    ensures var v := Published(w, g);
            SafeBackups(v.backups, v.stages, v.retirements, v.last, v.receipts, v.committed, v.nextGeneration)
  {
    var v := Published(w, g);
    forall h | h in v.backups
      ensures SafeBackup(v.backups[h], h, h in v.retirements, v.last == Some(h), v.receipts, v.committed)
    {
      assert h != g ==> h in w.backups && !Unresolved(w, h);
    }
  }

  lemma PublishKeepsRuns(w: World, g: Generation)
    requires SafeRuns(w.committed, w.runs, w.failedReports, w.backups, w.retirements, w.nextGeneration)
    requires g in w.stages && g !in w.committed
    ensures var v := Published(w, g);
            SafeRuns(v.committed, v.runs, v.failedReports, v.backups, v.retirements, v.nextGeneration)
  {
    var v := Published(w, g);
    forall h | h in v.committed
      ensures PassPending(v.backups, v.retirements, h) || v.runs[v.committed[h]] == Passed(h)
    {
      assert h != g;
      assert StateOf(v.backups, v.retirements, h) == StateOf(w.backups, w.retirements, h);
    }
  }

  lemma IssueKeepsClients(env: EnvFile, clients: Clients, next: ClientId, g: Generation, nextGeneration: Generation)
    requires SafeClients(env, clients, next, nextGeneration) && g < nextGeneration
    requires forall id | id in clients :: clients[id].name != HermesCutover(g)
    ensures SafeClients(env, clients[next := Client(HermesCutover(g), true)], next + 1, nextGeneration)
  {}

  lemma IssueKeepsPair(env: EnvFile, config: string, d: Directory, g: Generation, clients: Clients, next: ClientId)
    requires d.env.Some? && d.config.Some? && d.journal.Some?
    requires SafePair(env, config, d, g, clients) && TokenLive(clients, env) && next !in clients
    ensures SafePair(env, config, d, g, clients[next := Client(HermesCutover(g), true)])
  {}

  lemma IssueGrows(w: World, g: Generation)
    requires w.nextClient !in w.clients
    ensures Grows(w, Issued(w, g))
  {}

  lemma IssueIsSafe(w: World, g: Generation)
    requires Safe(w) && g < w.nextGeneration
    requires forall id | id in w.clients :: w.clients[id].name != HermesCutover(g)
    requires w.last == Some(g) && StateOf(w.backups, w.retirements, g).Some?
    ensures Safe(Issued(w, g)) && Grows(w, Issued(w, g))
  {
    hide Grows, SafeRuns;
    IssueGrows(w, g);
    IssueKeepsClients(w.env, w.clients, w.nextClient, g, w.nextGeneration);
    IssueKeepsPair(w.env, w.config, w.backups[g], g, w.clients, w.nextClient);
  }

  lemma RevokeKeepsPair(env: EnvFile, config: string, d: Directory, g: Generation, clients: Clients, id: ClientId)
    requires d.env.Some? && d.config.Some? && d.journal.Some? && id in clients
    requires SafePair(env, config, d, g, clients)
    requires PreCommit(d.journal.value.state) ==> d.env.value.credential != Bearer(id)
    requires PreCommit(d.journal.value.state) && d.journal.value.client == Some(id) ==> SnapshotPair(env, config, d)
    ensures SafePair(env, config, d, g, clients[id := clients[id].(active := false)])
  {}

  lemma RevokeKeepsClients(env: EnvFile, clients: Clients, next: ClientId, nextGeneration: Generation, id: ClientId)
    requires SafeClients(env, clients, next, nextGeneration) && id in clients && env.credential != Bearer(id)
    ensures SafeClients(env, clients[id := clients[id].(active := false)], next, nextGeneration)
  {}

  /** The snapshot a rollback would restore: that of a newest generation before its commit point. */
  predicate RollbackTarget(w: World, g: Generation) {
    w.last == Some(g) && StateOf(w.backups, w.retirements, g).Some?
    && PreCommit(StateOf(w.backups, w.retirements, g).value)
  }

  lemma RevokeGrows(w: World, id: ClientId)
    requires id in w.clients && w.clients[id].name.HermesCutover?
    ensures Grows(w, Revoked(w, id))
  {}

  /** A client may be revoked once neither the live file nor the snapshot that a
      rollback would restore holds its token. */
  lemma RevokeIsSafe(w: World, id: ClientId)
    requires Safe(w) && id in w.clients && w.clients[id].name.HermesCutover?
    requires w.env.credential != Bearer(id)
    requires w.last.Some? && RollbackTarget(w, w.last.value) && w.backups[w.last.value].env.Some? ==>
               w.backups[w.last.value].env.value.credential != Bearer(id)
    requires w.last.Some? && RollbackTarget(w, w.last.value)
             && w.backups[w.last.value].journal.value.client == Some(id) ==>
               SnapshotPair(w.env, w.config, w.backups[w.last.value])
    ensures Safe(Revoked(w, id)) && Grows(w, Revoked(w, id))
  {
    hide Grows, SafeBackups, SafeRuns;
    RevokeGrows(w, id);
    RevokeKeepsClients(w.env, w.clients, w.nextClient, w.nextGeneration, id);
    if w.last.Some? && StateOf(w.backups, w.retirements, w.last.value).Some? {
      RevokeKeepsPair(w.env, w.config, w.backups[w.last.value], w.last.value, w.clients, id);
    }
  }

  predicate CanCommit(w: World, g: Generation) {
    g in w.receipts && w.receipts[g].run in w.runs && w.receipts[g].run !in w.committed.Values
    && w.receipts[g].run !in w.failedReports && g !in w.committed
  }

  predicate PassTold(w: World, g: Generation) {
    ToldOf(w.committed, w.runs, g)
  }

  /** What moving the journal of `g` to `state` asks of receipts, history and QA runs. */
  predicate JournalAllowed(w: World, g: Generation, state: JournalState, client: Option<ClientId>) {
    && (PostCommit(state) ==> g in w.receipts && client == Some(w.receipts[g].client))
    && (match state
        case Committed => CanCommit(w, g)
        case ReconcilePending => g in w.committed && w.committed[g] == w.receipts[g].run
        case Reconciled => PassTold(w, g) && w.committed[g] == w.receipts[g].run
        case _ => g !in w.committed)
  }

  lemma JournalKeepsBackups(w: World, g: Generation, state: JournalState, client: Option<ClientId>)
    requires SafeBackups(w.backups, w.stages, w.retirements, w.last, w.receipts, w.committed, w.nextGeneration)
    requires w.last == Some(g) && g in w.backups && g !in w.retirements && SnapshotValid(w.backups[g], g)
    requires JournalAllowed(w, g, state, client)
    ensures var v := JournalWritten(w, g, state, client);
            SafeBackups(v.backups, v.stages, v.retirements, v.last, v.receipts, v.committed, v.nextGeneration)
  {}

  lemma JournalKeepsRuns(w: World, g: Generation, state: JournalState, client: Option<ClientId>)
    requires SafeRuns(w.committed, w.runs, w.failedReports, w.backups, w.retirements, w.nextGeneration)
    requires g in w.backups && g !in w.retirements && g < w.nextGeneration
    requires JournalAllowed(w, g, state, client)
    ensures var v := JournalWritten(w, g, state, client);
            SafeRuns(v.committed, v.runs, v.failedReports, v.backups, v.retirements, v.nextGeneration)
  {}

  /** The journal of the newest generation may move to any state that describes the live pair. */
  ghost predicate JournalReady(w: World, g: Generation, state: JournalState, client: Option<ClientId>) {
    && w.last == Some(g) && StateOf(w.backups, w.retirements, g).Some?
    && SnapshotValid(w.backups[g], g) && JournalAllowed(w, g, state, client)
    && SafePair(w.env, w.config, w.backups[g].(journal := Some(Journal(state, Some(HermesCutover(g)), client))), g,
                w.clients)
    && (PreCommit(state) || w.containerUp)
  }

  lemma JournalGrows(w: World, g: Generation, state: JournalState, client: Option<ClientId>)
    requires g in w.backups && JournalAllowed(w, g, state, client)
    ensures Grows(w, JournalWritten(w, g, state, client))
  {}

  lemma JournalIsSafe(w: World, g: Generation, state: JournalState, client: Option<ClientId>)
    requires Safe(w) && JournalReady(w, g, state, client)
    ensures Safe(JournalWritten(w, g, state, client)) && Grows(w, JournalWritten(w, g, state, client))
  {
    hide Grows;
    JournalGrows(w, g, state, client);
    JournalKeepsBackups(w, g, state, client);
    JournalKeepsRuns(w, g, state, client);
    JournalKeepsRevocation(w, g, state, client);
    hide SafeClients, SafeBackups, SafeRuns, SafeRevocation, SafePair, JournalAllowed, SnapshotValid;
  }

  lemma JournalKeepsRevocation(w: World, g: Generation, state: JournalState, client: Option<ClientId>)
    requires SafeRuns(w.committed, w.runs, w.failedReports, w.backups, w.retirements, w.nextGeneration)
    requires SafeRevocation(w.last, w.receipts, w.committed, w.runs, w.clients)
    requires g in w.backups && JournalAllowed(w, g, state, client)
    ensures var v := JournalWritten(w, g, state, client);
            SafeRevocation(v.last, v.receipts, v.committed, v.runs, v.clients)
  {}

  lemma TempsKeepStates(backups: Backups, retirements: Retirements, g: Generation, temps: bool)
    requires g in backups
    ensures var after := backups[g := backups[g].(temps := temps)];
            forall h :: StateOf(after, retirements, h) == StateOf(backups, retirements, h)
  {}

  lemma TempsKeepBackups(w: World, g: Generation, temps: bool)
    requires SafeBackups(w.backups, w.stages, w.retirements, w.last, w.receipts, w.committed, w.nextGeneration)
             && g in w.backups
    ensures SafeBackups(w.backups[g := w.backups[g].(temps := temps)], w.stages, w.retirements, w.last, w.receipts,
                        w.committed, w.nextGeneration)
  {
    var after := w.backups[g := w.backups[g].(temps := temps)];
    assert SafeBackup(w.backups[g], g, g in w.retirements, w.last == Some(g), w.receipts, w.committed);
    assert SafeBackup(after[g], g, g in w.retirements, w.last == Some(g), w.receipts, w.committed);
    hide SafeBackup;
  }

  lemma TempsKeepNewest(w: World, g: Generation, temps: bool)
    requires SafeNewest(w.env, w.config, w.containerUp, w.backups, w.retirements, w.last, w.clients) && g in w.backups
    ensures SafeNewest(w.env, w.config, w.containerUp, w.backups[g := w.backups[g].(temps := temps)], w.retirements,
                       w.last, w.clients)
  {
    hide IsCandidateConfig, ActiveClient;
    TempsKeepStates(w.backups, w.retirements, g, temps);
  }

  /** Temporary files mean nothing to the invariant. */
  lemma TempsAreSafe(w: World, g: Generation, temps: bool)
    requires Safe(w) && g in w.backups
    ensures Safe(w.(backups := w.backups[g := w.backups[g].(temps := temps)]))
            && Grows(w, w.(backups := w.backups[g := w.backups[g].(temps := temps)]))
  {
    hide Grows, SafeRevocation, SafeClients, SafeBackups, SafeNewest, StateOf;
    SameHistoryGrows(w, w.(backups := w.backups[g := w.backups[g].(temps := temps)]));
    TempsKeepBackups(w, g, temps);
    TempsKeepNewest(w, g, temps);
    TempsKeepStates(w.backups, w.retirements, g, temps);
  }

  lemma ReceiptIsSafe(w: World, g: Generation, r: Receipt)
    requires Safe(w) && g in w.backups && g !in w.retirements && g !in w.committed
    ensures Safe(ReceiptWritten(w, g, r)) && Grows(w, ReceiptWritten(w, g, r))
  {
    hide Grows, SafeNewest, SafeRuns, SafeClients;
    SameHistoryGrows(w, ReceiptWritten(w, g, r));
  }

  /** Only a reconciled generation may get a retirement receipt. */
  lemma RetirementIsSafe(w: World, g: Generation, r: Retirement)
    requires Safe(w) && StateOf(w.backups, w.retirements, g) == Some(Reconciled)
    ensures Safe(w.(retirements := w.retirements[g := r])) && Grows(w, w.(retirements := w.retirements[g := r]))
  {
    hide SafeClients, SafeBackups, SafeRuns, SafeNewest, SafeRevocation;
    RetirementKeepsBackups(w, g, r);
    ReconciledIsCommitted(w, g);
    RetirementKeepsRuns(w, g, r);
    RetirementKeepsNewest(w.env, w.config, w.containerUp, w.backups, w.retirements, w.last, w.clients, g, r);
  }

  lemma ReconciledIsCommitted(w: World, g: Generation)
    requires SafeBackups(w.backups, w.stages, w.retirements, w.last, w.receipts, w.committed, w.nextGeneration)
    requires StateOf(w.backups, w.retirements, g) == Some(Reconciled)
    ensures g in w.committed
  {
    assert SafeBackup(w.backups[g], g, g in w.retirements, w.last == Some(g), w.receipts, w.committed);
  }

  lemma RetirementKeepsNewest(env: EnvFile, config: string, up: bool, backups: Backups, retirements: Retirements,
                              last: Option<Generation>, clients: Clients, g: Generation, r: Retirement)
    requires SafeNewest(env, config, up, backups, retirements, last, clients)
    requires StateOf(backups, retirements, g) == Some(Reconciled)
    ensures SafeNewest(env, config, up, backups, retirements[g := r], last, clients)
  {
    hide SafePair;
  }

  lemma RetirementKeepsBackups(w: World, g: Generation, r: Retirement)
    requires SafeBackups(w.backups, w.stages, w.retirements, w.last, w.receipts, w.committed, w.nextGeneration)
    requires StateOf(w.backups, w.retirements, g) == Some(Reconciled)
    ensures SafeBackups(w.backups, w.stages, w.retirements[g := r], w.last, w.receipts, w.committed, w.nextGeneration)
  {}

  lemma RetirementKeepsRuns(w: World, g: Generation, r: Retirement)
    requires SafeRuns(w.committed, w.runs, w.failedReports, w.backups, w.retirements, w.nextGeneration)
    requires StateOf(w.backups, w.retirements, g) == Some(Reconciled) && g in w.committed
    ensures SafeRuns(w.committed, w.runs, w.failedReports, w.backups, w.retirements[g := r], w.nextGeneration)
  {}

  /** Backup files, and at last the directory, may go once the retirement receipt is durable. */
  lemma RemovalIsSafe(w: World, g: Generation, backups: Backups)
    requires Safe(w) && g in w.backups && g in w.retirements
    requires backups == w.backups - {g} || exists f :: backups == w.backups[g := w.backups[g].Without(f)]
    ensures Safe(w.(backups := backups)) && Grows(w, w.(backups := backups))
  {
    hide SafePair, IsCandidateConfig, SafeClients, SafeBackups, SafeRuns, SafeNewest, SafeRevocation, Grows;
    RemovalGrows(w, g, backups);
    RemovalKeepsBackups(w, g, backups);
    RemovalIsLocal(w.backups, g, backups);
    RemovalKeepsRuns(w, g, backups);
    RemovalKeepsNewest(w.env, w.config, w.containerUp, w.backups, w.retirements, w.last, w.clients, g, backups);
  }

  lemma RemovalGrows(w: World, g: Generation, backups: Backups)
    requires g in w.backups && g in w.retirements
    requires backups == w.backups - {g} || exists f :: backups == w.backups[g := w.backups[g].Without(f)]
    ensures Grows(w, w.(backups := backups))
  {
    RemovalIsLocal(w.backups, g, backups);
  }

  lemma RemovalIsLocal(before: Backups, g: Generation, after: Backups)
    requires g in before
    requires after == before - {g} || exists f :: after == before[g := before[g].Without(f)]
    ensures after - {g} == before - {g} && forall h | h != g :: h in after <==> h in before
    ensures forall h | h != g && h in before :: after[h] == before[h]
  {}

  lemma RemovalKeepsNewest(env: EnvFile, config: string, up: bool, backups: Backups, retirements: Retirements,
                           last: Option<Generation>, clients: Clients, g: Generation, after: Backups)
    requires SafeNewest(env, config, up, backups, retirements, last, clients) && g in retirements
    requires forall h | h != g :: h in after <==> h in backups
    requires forall h | h != g && h in backups :: after[h] == backups[h]
    ensures SafeNewest(env, config, up, after, retirements, last, clients)
  {
    hide SafePair;
  }

  lemma RemovalKeepsBackups(w: World, g: Generation, backups: Backups)
    requires SafeBackups(w.backups, w.stages, w.retirements, w.last, w.receipts, w.committed, w.nextGeneration)
    requires g in w.backups && g in w.retirements
    requires backups == w.backups - {g} || exists f :: backups == w.backups[g := w.backups[g].Without(f)]
    ensures SafeBackups(backups, w.stages, w.retirements, w.last, w.receipts, w.committed, w.nextGeneration)
  {}

  lemma RemovalKeepsRuns(w: World, g: Generation, backups: Backups)
    requires SafeRuns(w.committed, w.runs, w.failedReports, w.backups, w.retirements, w.nextGeneration)
    requires g in w.retirements && backups - {g} == w.backups - {g}
    ensures SafeRuns(w.committed, w.runs, w.failedReports, backups, w.retirements, w.nextGeneration)
  {
    assert forall h | h != g :: h in backups - {g} <==> h in backups;
    assert forall h | h != g :: h in w.backups - {g} <==> h in w.backups;
  }

  lemma TimeoutIsSafe(w: World, expired: set<RunId>)
    requires Safe(w)
    ensures Safe(TimedOut(w, expired)) && Grows(w, TimedOut(w, expired))
  {
    hide Grows, SafeBackups, SafeNewest, SafeClients;
    TimeoutGrows(w, expired);
  }

  lemma TimeoutGrows(w: World, expired: set<RunId>)
    ensures Grows(w, TimedOut(w, expired))
  {}

  lemma FailReportGrows(w: World, r: RunId)
    ensures Grows(w, FailReported(w, r))
  {}

  /** FAILED may be reported only for a run no generation was committed for. */
  lemma FailReportIsSafe(w: World, r: RunId)
    requires Safe(w) && r !in w.committed.Values
    ensures Safe(FailReported(w, r)) && Grows(w, FailReported(w, r))
  {
    hide Grows, SafeBackups, SafeNewest, SafeClients;
    FailReportGrows(w, r);
  }

  /** PASS may be told of the newest generation, once committed, when every other
      Hermes client has lost its authorization. */
  lemma PassReportIsSafe(w: World, g: Generation)
    requires Safe(w) && g in w.committed && w.last == Some(g)
    requires g in w.receipts && OthersRevoked(w, w.receipts[g].client)
    ensures Safe(PassReported(w, w.committed[g], g)) && Grows(w, PassReported(w, w.committed[g], g))
  {}

  // ---- Facts the helper's procedures rely on -------------------------------

  lemma NextGenerationIsFresh(w: World)
    requires Safe(w)
    ensures w.nextGeneration !in w.backups && w.nextGeneration !in w.committed && w.nextGeneration !in w.retirements
    ensures forall id | id in w.clients :: w.clients[id].name != HermesCutover(w.nextGeneration)
  {}

  lemma UnresolvedIsWhole(w: World, g: Generation)
    requires Safe(w) && StateOf(w.backups, w.retirements, g).Some?
    ensures SnapshotValid(w.backups[g], g)
    ensures PreCommit(StateOf(w.backups, w.retirements, g).value) ==> g !in w.committed
  {
    assert SafeBackup(w.backups[g], g, g in w.retirements, w.last == Some(g), w.receipts, w.committed);
    hide SafeNewest, SafeRuns, SafeClients, SafeRevocation;
  }

  /** Before the commit point the snapshot is intact, and stopping or starting the
      container and putting the snapshot back file by file is safe. */
  lemma RestoreIsSafe(w: World, g: Generation, up: bool)
    requires Safe(w) && RollbackTarget(w, g)
    ensures SnapshotValid(w.backups[g], g) && g !in w.committed && TokenLive(w.clients, w.backups[g].env.value)
    ensures Safe(w.(containerUp := up)) && Grows(w, w.(containerUp := up))
    ensures Safe(w.(env := w.backups[g].env.value)) && Grows(w, w.(env := w.backups[g].env.value))
    ensures w.env == w.backups[g].env.value ==>
              Safe(w.(config := w.backups[g].config.value)) && Grows(w, w.(config := w.backups[g].config.value))
  {
    hide Grows, SafeBackups, SafeRuns, SafeRevocation;
    UnresolvedIsWhole(w, g);
    SameHistoryGrows(w, w.(containerUp := up));
    SameHistoryGrows(w, w.(env := w.backups[g].env.value));
    SameHistoryGrows(w, w.(config := w.backups[g].config.value));
    hide IsCandidateConfig;
  }

  /** Generation `g` has an issued candidate client `id` and has not reached its commit point. */
  predicate CandidateOpen(w: World, g: Generation, id: ClientId) {
    var s := StateOf(w.backups, w.retirements, g);
    w.last == Some(g) && (s == Some(CandidateReady) || s == Some(CandidateApplied))
    && w.backups[g].journal.value.client == Some(id) && ActiveClient(w.clients, id)
  }

  lemma SwitchIsSafe(w: World, g: Generation, id: ClientId, config: string)
    requires Safe(w) && CandidateOpen(w, g, id)
    ensures SnapshotValid(w.backups[g], g)
    ensures Safe(w.(env := CandidateEnv(w.backups[g].env.value, id)))
            && Grows(w, w.(env := CandidateEnv(w.backups[g].env.value, id)))
    ensures IsCandidateConfig(w.backups[g].config.value, config) ==>
              Safe(w.(config := config)) && Grows(w, w.(config := config))
  {
    hide Grows, SafeBackups, SafeRuns, SafeRevocation;
    UnresolvedIsWhole(w, g);
    SameHistoryGrows(w, w.(env := CandidateEnv(w.backups[g].env.value, id)));
    SameHistoryGrows(w, w.(config := config));
    hide IsCandidateConfig;
  }

  // ---- The journal moves of `apply`, reconciliation and recovery -----------

  lemma MoveToCandidateReady(w: World, g: Generation, id: ClientId)
    requires Safe(w) && w.last == Some(g) && StateOf(w.backups, w.retirements, g) == Some(ClientOperationPrepared)
    requires ActiveClient(w.clients, id) && w.clients[id].name == HermesCutover(g)
    ensures JournalReady(w, g, CandidateReady, Some(id))
  {}

  lemma MoveToCandidateApplied(w: World, g: Generation, id: ClientId)
    requires Safe(w) && CandidateOpen(w, g, id)
    ensures JournalReady(w, g, CandidateApplied, Some(id))
  {}

  lemma MoveToCommitted(w: World, g: Generation, id: ClientId)
    requires Safe(w) && CandidateOpen(w, g, id) && w.containerUp
    requires CandidatePair(w.env, w.config, w.backups[g], id)
    requires CanCommit(w, g) && w.receipts[g].client == id
    ensures JournalReady(w, g, Committed, Some(id))
  {}

  lemma MoveToReconciled(w: World, g: Generation)
    requires Safe(w) && w.last == Some(g) && PassPending(w.backups, w.retirements, g) && PassTold(w, g)
    ensures g in w.receipts && JournalReady(w, g, Reconciled, Some(w.receipts[g].client))
  {}

  lemma MoveToReconcilePending(w: World, g: Generation, client: ClientId)
    requires Safe(w) && w.last == Some(g) && StateOf(w.backups, w.retirements, g).Some?
    requires g in w.committed && w.backups[g].journal.value.client == Some(client)
    ensures JournalReady(w, g, ReconcilePending, Some(client))
  {}

  lemma MoveToRollbackCleanup(w: World, g: Generation, id: ClientId)
    requires Safe(w) && RollbackTarget(w, g)
    requires SnapshotPair(w.env, w.config, w.backups[g]) && w.containerUp
    requires id in w.clients && w.clients[id].name == HermesCutover(g)
    ensures JournalReady(w, g, RollbackCleanupPending, Some(id))
  {}

  /** The generation can be closed as not committed: the live pair is its snapshot. */
  predicate RolledBackPair(w: World, g: Generation) {
    var s := StateOf(w.backups, w.retirements, g);
    w.last == Some(g) && s.Some? && (PreCommit(s.value) || s.value.RollbackCleanupPending?)
    && SnapshotPair(w.env, w.config, w.backups[g]) && w.containerUp
  }

  lemma MoveToRolledBack(w: World, g: Generation, state: JournalState, client: Option<ClientId>)
    requires Safe(w) && RolledBackPair(w, g) && (state.RolledBack? || state.Recovered?)
    ensures JournalReady(w, g, state, client)
  {}

  /** Once the snapshot is back, the clients issued for the generation may be revoked. */
  lemma CandidateRevocationIsSafe(w: World, g: Generation, id: ClientId)
    requires Safe(w) && RolledBackPair(w, g) && id in w.clients && w.clients[id].name == HermesCutover(g)
    ensures Safe(Revoked(w, id)) && Grows(w, Revoked(w, id))
  {
    RevokeIsSafe(w, id);
  }

  /** A committed generation has its receipt, and the live `.env` holds the token of its client. */
  lemma PendingGeneration(w: World, g: Generation)
    requires Safe(w) && w.last == Some(g) && PassPending(w.backups, w.retirements, g)
    ensures g in w.receipts && g in w.committed && w.committed[g] == w.receipts[g].run && w.committed[g] in w.runs
    ensures w.backups[g].journal.value.client == Some(w.receipts[g].client) && w.receipts[g].client in w.clients
    ensures w.env.credential == Bearer(w.receipts[g].client) && !RollbackTarget(w, g)
    ensures CandidatePair(w.env, w.config, w.backups[g], w.receipts[g].client)
  {}

  /** An unresolved generation is the newest one, and its snapshot is complete and hash-valid. */
  lemma UnresolvedIsNewest(w: World, g: Generation)
    requires Safe(w) && Unresolved(w, g)
    ensures w.last == Some(g) && SnapshotValid(w.backups[g], g)
    ensures w.backups[g].journal.value.name == Some(HermesCutover(g))
    ensures Recovery(w.backups[g].journal.value).Some?
    ensures Recovery(w.backups[g].journal.value) == Some(RevokeAfterRollback) ==> RolledBackPair(w, g)
    ensures w.backups[g].journal.value.client.Some? ==> JournalClient(w.clients, g, w.backups[g].journal.value)
    ensures forall a, b | a in w.clients && b in w.clients
                          && w.clients[a].name == HermesCutover(g) == w.clients[b].name ::
              a == b
  {}

  /** A reconciled generation is fit for retirement. */
  lemma ReconciledGeneration(w: World, g: Generation)
    requires Safe(w) && StateOf(w.backups, w.retirements, g) == Some(Reconciled)
    ensures SnapshotValid(w.backups[g], g) && g in w.receipts
    ensures w.backups[g].journal.value.client == Some(w.receipts[g].client)
  {}

  /** With nothing unresolved, a QA run that is still running has no committed
      generation and no accepted FAILED report. */
  lemma RunningIsRunnable(w: World, run: RunId)
    requires Safe(w) && NoneUnresolved(w.backups, w.retirements)
    requires run in w.runs && w.runs[run].Running?
    ensures run !in w.committed.Values && run !in w.failedReports
  {
    forall g | g in w.committed
      ensures w.committed[g] != run
    {
      assert !UnresolvedIn(w.backups, w.retirements, g);
    }
  }

  /** The generation is reconciled, being retired or not, and its QA run was told. */
  predicate Confirmed(w: World, g: Generation, run: RunId) {
    && g in w.backups && w.backups[g].journal.Some? && w.backups[g].journal.value.state.Reconciled?
    && g in w.receipts && w.receipts[g].run == run && g in w.committed && w.committed[g] == run
    && PassTold(w, g)
  }

  lemma ReconciledIsConfirmed(w: World, g: Generation)
    requires Safe(w) && g in w.backups && w.backups[g].journal.Some? && w.backups[g].journal.value.state.Reconciled?
    ensures g in w.receipts && Confirmed(w, g, w.receipts[g].run)
    ensures w.backups[g].journal.value.client == Some(w.receipts[g].client)
  {
    assert SafeBackup(w.backups[g], g, g in w.retirements, w.last == Some(g), w.receipts, w.committed);
    hide SafeClients, SafeNewest;
  }

  /** The journal of a whole backup can be read, and after `committed` its receipt. */
  lemma WholeIsReadable(w: World, g: Generation)
    requires Safe(w) && g in w.backups && SnapshotValid(w.backups[g], g) && w.backups[g].journal.Some?
    ensures Recovery(w.backups[g].journal.value).Some?
    ensures PostCommit(w.backups[g].journal.value.state) ==>
              g in w.receipts && w.backups[g].journal.value.client == Some(w.receipts[g].client)
  {
    assert SafeBackup(w.backups[g], g, g in w.retirements, w.last == Some(g), w.receipts, w.committed);
    hide SafeClients;
  }

  lemma StagesAreNoBackups(w: World)
    requires Safe(w)
    ensures forall g | g in w.stages :: g !in w.backups
  {}

  lemma ArmingGrows(w: World, run: RunId)
    requires run !in w.runs
    ensures Grows(w, w.(runs := w.runs[run := Running]))
  {}

  lemma ArmingIsSafe(w: World, run: RunId)
    requires Safe(w) && run !in w.runs
    ensures Safe(w.(runs := w.runs[run := Running])) && Grows(w, w.(runs := w.runs[run := Running]))
  {
    hide Grows;
    ArmingGrows(w, run);
  }

  // ---- What safety means ---------------------------------------------------

  /** A client issued for the newest generation has lost its authorization only with the
      snapshot back in place. */
  lemma RevokedMeansRestored(w: World, g: Generation, id: ClientId)
    requires Safe(w) && w.last == Some(g) && StateOf(w.backups, w.retirements, g).Some?
    requires id in w.clients && w.clients[id].name == HermesCutover(g) && !w.clients[id].active
    ensures SnapshotPair(w.env, w.config, w.backups[g])
  {
    hide SafeBackups, SafeRuns, SafeRevocation, IsCandidateConfig;
  }

  /** The promises of the cutover that hold in every safe world. */
  lemma SafetyPromises(w: World)
    requires Safe(w)
    // The client whose token is live can authenticate.
    ensures TokenLive(w.clients, w.env)
    // At most one generation is unresolved, it is the newest, and it can be rolled back or read.
    ensures forall g, h | Unresolved(w, g) && Unresolved(w, h) :: g == h
    ensures forall g | Unresolved(w, g) :: w.last == Some(g) && SnapshotValid(w.backups[g], g)
    // Backup files are missing only from a generation with a retirement receipt, and
    // only a committed generation whose QA run was told has one.
    ensures forall g | g in w.backups && !SnapshotValid(w.backups[g], g) :: g in w.retirements
    ensures forall g | g in w.retirements :: g in w.receipts && PassTold(w, g)
    // A run has passed only with a committed generation; and once PASS was told of the
    // newest generation, no other Hermes client is authorized.
    ensures forall r | r in w.runs && w.runs[r].Passed? ::
              w.runs[r].generation in w.committed && w.committed[w.runs[r].generation] == r
    ensures forall g | w.last == Some(g) && PassTold(w, g) :: g in w.receipts && OthersRevoked(w, w.receipts[g].client)
    // A client issued for the newest generation has lost its authorization only with the
    // snapshot back in place.
    ensures forall g, id | w.last == Some(g) && StateOf(w.backups, w.retirements, g).Some? && id in w.clients
                           && w.clients[id].name == HermesCutover(g) && !w.clients[id].active ::
              SnapshotPair(w.env, w.config, w.backups[g])
    // A QA run gets at most one committed generation, and never also a FAILED report.
    ensures forall g, h | g in w.committed && h in w.committed && w.committed[g] == w.committed[h] :: g == h
    ensures forall g | g in w.committed :: w.committed[g] !in w.failedReports
    // Committed past recall: the live pair is the candidate; abandoned: it is the snapshot.
    ensures forall g | w.last == Some(g) && StateOf(w.backups, w.retirements, g).Some? ::
              match w.backups[g].journal.value.state
              case Committed | ReconcilePending | Reconciled =>
                g in w.receipts && CandidatePair(w.env, w.config, w.backups[g], w.receipts[g].client)
              case RollbackCleanupPending | RolledBack | Recovered => SnapshotPair(w.env, w.config, w.backups[g])
              case _ => true
  {
    forall g | Unresolved(w, g)
      ensures w.last == Some(g) && SnapshotValid(w.backups[g], g)
    {
      UnresolvedIsNewest(w, g);
    }
    forall g, id | w.last == Some(g) && StateOf(w.backups, w.retirements, g).Some? && id in w.clients
                   && w.clients[id].name == HermesCutover(g) && !w.clients[id].active
      ensures SnapshotPair(w.env, w.config, w.backups[g])
    {
      RevokedMeansRestored(w, g, id);
    }
  }

  /** Two worlds of one run and a later world of it: a QA run gets one commitment at most
      and never also a FAILED report, whenever either happened; a backup that has gone was
      retired behind a receipt, and its run had been told. */
  lemma HistoryPromises(a: World, b: World, later: World)
    requires Safe(later) && Grows(a, later) && Grows(b, later)
    ensures forall g, h | g in a.committed && h in b.committed && a.committed[g] == b.committed[h] :: g == h
    ensures forall g | g in a.committed :: a.committed[g] !in b.failedReports
    ensures forall g | g in a.backups && g !in later.backups ::
              g in later.retirements && g in later.receipts && PassTold(later, g)
    ensures forall id | id in a.clients && !a.clients[id].name.HermesCutover? ::
              id in later.clients && later.clients[id] == a.clients[id]
  {
    hide SafeNewest, SafeClients;
  }

  /** Why the journal write that commits must not be reported as failed once it took
      place: the rollback that follows would put a token back into `.env` which the
      recovery, reading `committed`, goes on to revoke. */
  lemma LateCommitFailure(w: World, g: Generation, id: ClientId, former: ClientId)
    requires Safe(w) && CandidateOpen(w, g, id) && JournalReady(w, g, Committed, Some(id))
    requires w.backups[g].env == Some(EnvFile(Bearer(former), w.env.rest)) && former != id
    requires ActiveClient(w.clients, former) && w.clients[former].name.HermesCutover?
    ensures var committed := JournalWritten(w, g, Committed, Some(id));
            var rollingBack := committed.(env := w.backups[g].env.value);
            && Safe(committed) && !Safe(rollingBack)
            && Recovery(rollingBack.backups[g].journal.value) == Some(ReconcileCommitted)
            && !OthersRevoked(rollingBack, id)
            && !TokenLive(Revoked(rollingBack, former).clients, rollingBack.env)
  {
    hide IsCandidateConfig, SafeBackups, SafeRuns;
    JournalIsSafe(w, g, Committed, Some(id));
    var committed := JournalWritten(w, g, Committed, Some(id));
    var rollingBack := committed.(env := w.backups[g].env.value);
    assert !SafePair(rollingBack.env, rollingBack.config, rollingBack.backups[g], g, rollingBack.clients);
  }
}
