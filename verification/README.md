# NBLB gateway and Hermes cutover: a verified model

A Dafny model of the parts of the NVIDIA build load balancer whose correctness is
hard to see: the Hermes cutover helper with its crash recovery, the request,
attempt and permit ledger, the failover loop and the streaming body, the vault and
its database copy, event-stream validation, key selection and admission. Paths in
this file are relative to the repository root.

`dafny verify dfyconfig.toml` checks the whole project.

## The modules

| files | what they model |
|---|---|
| `CutoverWorld.dfy`, `Cutover.dfy` | `apply`, rollback, recovery, retirement and the command loop of the host helper, one durable step at a time |
| `ConfigRewrite.dfy`, `PatternScan.dfy` | the dotenv and YAML rewrites, and the secret scan over a stream of reads |
| `Ledger.dfy` | the rows of one request and every transaction on them, with restart cleanup |
| `Evidence.dfy`, `Terminals.dfy` | the guards that close the rows and release the permit, under every fate of every await |
| `Replies.dfy`, `Failover.dfy`, `Streaming.dfy`, `Proxy.dfy` | what a provider's reply means, the retry loop, the response body, and a whole request from admission to its last drop |
| `Utf8.dfy`, `SseFraming.dfy`, `SseLaws.dfy` | the incremental validator of event streams, and what it accepts |
| `Vault.dfy`, `VaultSync.dfy`, `VaultMerge.dfy` | the vault object, its database copy, the delta between them, and what deltas of several gateways leave |
| `Router.dfy`, `Admission.dfy` | round-robin selection and the permit limits |

**Cutover.** The world holds the two live files, staging and backup directories with
their journals, receipts, clients, QA runs and the container. Each atomic file
replacement, journal write, remote call and container command is one step, and a
script decides of each whether it works, fails without or with its effect, or kills
the helper before, within or after it; the helper itself may be replaced by another
build. `Safe` is the crash invariant. The ghost set `seen`
collects every world the host was ever in; each method keeps all of them safe, so its
contract speaks of every crash point inside it, also inside recovery. Every step is one
along which the world `Grows`, so what is final in any world seen is so in all later ones.
The ghost set `probes` holds what was looked at and found good, with the time and the live
files and container state it was found on: health, the verification of Hermes, the scans and
the preflight. `SmoothBetween` says that no step between two times went wrong; every method
that ends well says so of its own steps.

**Ledger and guards.** All statements about a request select by its id, so its rows
are one record and a transaction is a function on it. The classes of `Evidence.dfy`
and `Streaming.dfy` have the source's fields; each awaited transaction may commit,
fail, commit without its answer being heard, or be dropped before or after its effect,
and just before any of them another gateway's restart cleanup may take this process for
dead. `holder`
names the one party responsible for the permit; the flags `armed`, `permitAcquired`
and `retrying` of the parties are tied to it, and `Transact` requires and keeps this at
every await.

**Vault.** The vault is a class whose methods rewrite its rows and then its file;
their meaning is a function from state to state, about which the invariants are
proved; what each operation may do and does to a row is stated apart from that function
by `Allowed` and `Effect`. The delta is a function on the rows, computed by the loops of
`SyncDatabaseDelta`.

## Assumptions

- Nobody but the helper edits the Hermes files, issues clients with its labels or
  revokes its clients; identifiers, tokens and digests are opaque and fresh values.
- A failed step of the helper may or may not have had its effect, except for the one
  journal write that records `committed`: that write is assumed not to be reported as
  failed after its rename. `CutoverWorld.LateCommitFailure` shows why.
- The QA server accepts a PASS for a committed generation, and may time out runs.
- The database runs transactions one after the other, all or nothing; a client's
  permits are acquired under its advisory lock. The permit's `acquired_at` is the
  transaction's own start time.
- A gateway taken for dead can insert no more rows, since its owner row is gone.
- JSON validation is an arbitrary function from a payload to an optional id and model;
  `str::trim` in frames is arbitrary except that `[DONE]` is already trimmed.

## What the proofs turned up

Each of these has its exact condition in a contract and, where a host or a run is named,
a method that exhibits one.

- The permit of a request is left to nobody, until a restart cleanup, exactly when the
  acquiring insert commits but its answer is lost or the handler is dropped in that
  very await (`crates/gateway/src/evidence.rs:150-155`): `Evidence.LosePermit`.
- The rows of a request are left open with nothing in the process to close them, until a
  restart cleanup, exactly when the transaction that starts them commits but its answer
  is lost or the handler is dropped in that very await
  (`crates/gateway/src/evidence.rs:156-166`): `Evidence.LoseStart`.
- An error frame can end a stream whose ledger holds `succeeded`, exactly when the
  accounting committed and the answer to the success commit was lost:
  `Streaming.SucceedUnheard`.
- The bytes recorded are those of the frames sent, with two exceptions: a client that
  leaves while the ledger is being asked to close is charged for the error frame, which
  is counted before it is sent (`crates/gateway/src/streaming.rs:551`):
  `Streaming.LeaveDuringFailure`; and the success of the previous point counts the
  terminator and not the error frame that was sent.
- A vault mutation whose commit took effect unheard leaves the rows ahead of the vault,
  which is put back (`crates/gateway/src/main.rs:515-520`): `VaultSync.MoveOnUnheard`.
- A gateway whose copy is stale can enable a key that another gateway quarantined while it
  was disabled: each field is compared by itself, so the row ends enabled and unverified
  (`crates/gateway/src/main.rs:1248-1277`): `VaultMerge.EnableQuarantined`. No other field
  changes hands, and the selection asks for `verified` as well
  (`crates/gateway/src/evidence.rs:494`); `VaultMerge.RoutableExactly` says exactly when a
  row ends like that.
- A backup that is half retired stops every recovery at the snapshot check until the
  retirement is run again (`crates/gateway/src/bin/nblb-hermes-cutover.rs:1360`):
  `Cutover.StopHalfRetired`.
- A helper of another build can neither reconcile nor retire a generation, and cannot
  apply for a new run while a committed generation is in the backup directory
  (`crates/gateway/src/bin/nblb-hermes-cutover.rs:951`, `:979` and `:1607`):
  `Cutover.UpgradeTooEarly`. `Cutover.Helper.RunApply` says exactly when a new run can
  be served.
- A helper that dies inside a journal write leaves a `.journal.json.<uuid>.tmp`. A
  recovery by `preflight` repairs the generation and leaves that file, and
  `retire-backup` then refuses the directory on every rerun
  (`crates/gateway/src/bin/nblb-hermes-cutover.rs:1050-1059`); only the search that
  `apply` begins with removes it (`:1316`): `Cutover.LeaveTempBehind`.
- The comment in `multimodal` says that an accepted job is never posted to another key
  (`crates/gateway/src/proxy.rs:1433-1435`). For images and videos one key is tried and
  it holds; elsewhere the job is posted again exactly when polling succeeded, the body
  then broke off and another eligible key is left
  (`crates/gateway/src/proxy.rs:1514-1541`): `Failover.PostAcceptedTwice`. The model
  follows the code.
- Code that cannot be reached: what follows both retry loops and their `break`
  (`crates/gateway/src/proxy.rs:1035-1092`), the limit of 256 waiting frames
  (`crates/gateway/src/streaming.rs:57-59`), and the check for an indented model line.
- The comment on `release_request` (`crates/gateway/src/streaming.rs:142-144`) says the
  attempt has ended by then; after a failed priming it has not
  (`crates/gateway/src/proxy.rs:789`). The model follows the code.

## Model

| member | source | states |
|---|---|---|
| `CutoverWorld.SafetyPromises` | crates/gateway/src/bin/nblb-hermes-cutover.rs:637-819 | In every safe world: the client whose token is in `.env` is active; at most one generation is unresolved, it is the newest and its snapshot is complete and hash-valid; backup files are missing only behind a retirement receipt, and only a committed generation whose run was told of it has one; a QA run has passed only with a generation committed for it, and once PASS was told of the newest generation no other Hermes client is authorized; a client issued for the newest generation is revoked only with the snapshot back in place; a QA run has at most one committed generation and then never a FAILED report; the live pair is the candidate once the journal reached `committed` and the snapshot once it was given up |
| `CutoverWorld.HistoryPromises` | crates/gateway/src/bin/nblb-hermes-cutover.rs:637-819 | Over any two worlds of one run and a later one, in either order: a QA run gets at most one committed generation and never also a FAILED report; a backup directory that has gone went behind a retirement receipt, its run told of its generation; and a client with no cutover label is exactly as it was |
| `CutoverWorld.Recovery` | crates/gateway/src/bin/nblb-hermes-cutover.rs:1548-1566 | The recovery has nothing to do exactly for terminal journal states, and stops exactly for a cleanup journal without a client |
| `CutoverWorld.JournalIsSafe` | crates/gateway/src/bin/nblb-hermes-cutover.rs:2761-2779 | A journal write keeps the crash invariant whenever the new state describes the live pair, the receipt and the QA history |
| `CutoverWorld.PublishIsSafe` | crates/gateway/src/bin/nblb-hermes-cutover.rs:847-885 | Publishing a staged snapshot by one rename keeps the crash invariant if nothing else is unresolved |
| `CutoverWorld.RestoreIsSafe` | crates/gateway/src/bin/nblb-hermes-cutover.rs:892-908 | Before the commit point the snapshot is intact, its token live, and stopping, starting and putting the files back one at a time is safe at every boundary |
| `CutoverWorld.SwitchIsSafe` | crates/gateway/src/bin/nblb-hermes-cutover.rs:680-681 | Either live file may be replaced by the candidate's while the candidate client is open |
| `CutoverWorld.RevokeIsSafe` | crates/gateway/src/bin/nblb-hermes-cutover.rs:1655-1678 | A client may be revoked once neither the live file nor the snapshot a rollback would restore holds its token |
| `CutoverWorld.CandidateRevocationIsSafe` | crates/gateway/src/bin/nblb-hermes-cutover.rs:1376-1403 | After the snapshot is back, the clients issued for the generation may be revoked |
| `CutoverWorld.RevokedMeansRestored` | crates/gateway/src/bin/nblb-hermes-cutover.rs:1376-1403 | While the newest generation has its journal, a client issued for it has lost its authorization only if both live files are the snapshot's |
| `CutoverWorld.RunningIsRunnable` | crates/gateway/src/bin/nblb-hermes-cutover.rs:1285-1292 | With nothing unresolved, a run that is still running has no committed generation and no accepted FAILED report |
| `CutoverWorld.ReconciledIsConfirmed` | crates/gateway/src/bin/nblb-hermes-cutover.rs:1285-1293 | A reconciled generation, even one being retired, is committed for the run of its receipt, which has passed with it, and its journal names the client of the receipt |
| `CutoverWorld.FailReportIsSafe` | crates/gateway/src/bin/nblb-hermes-cutover.rs:2161-2172 | FAILED may be reported for a run without a committed generation |
| `CutoverWorld.PassReportIsSafe` | crates/gateway/src/bin/nblb-hermes-cutover.rs:2103-2159 | PASS may be told for the newest generation once it is committed and every other Hermes client has lost its authorization |
| `CutoverWorld.RetirementIsSafe` | crates/gateway/src/bin/nblb-hermes-cutover.rs:935-1010 | A retirement receipt may be written for a reconciled generation |
| `CutoverWorld.RemovalIsSafe` | crates/gateway/src/bin/nblb-hermes-cutover.rs:1044-1075 | Each file of a backup, and at last the directory, may go once the receipt is durable |
| `CutoverWorld.TempsAreSafe` | crates/gateway/src/bin/nblb-hermes-cutover.rs:1151-1179 | Temporary files that an interrupted journal write leaves, or a cleanup removes, mean nothing to the crash invariant |
| `CutoverWorld.UnresolvedIsNewest` | crates/gateway/src/bin/nblb-hermes-cutover.rs:1335-1365 | An unresolved generation is the newest, its journal readable, and its cleanup state means the snapshot is back |
| `CutoverWorld.LateCommitFailure` | crates/gateway/src/bin/nblb-hermes-cutover.rs:1151-1179 | If the write of `committed` failed after its rename, the rollback that follows would leave the invariant and the recovery would revoke the client whose token is in `.env` |
| `Cutover.Helper.Snapshot` | crates/gateway/src/bin/nblb-hermes-cutover.rs:847-885 | A finished snapshot is exactly the live pair with its hashes and a fresh journal; a failed one leaves the live pair alone |
| `Cutover.Helper.CleanupStage` | crates/gateway/src/bin/nblb-hermes-cutover.rs:1417-1446 | A staging directory goes file by file, in any order, and nothing else changes |
| `Cutover.Helper.RestoreSnapshot` | crates/gateway/src/bin/nblb-hermes-cutover.rs:892-897 | When done, both live files are the snapshot's |
| `Cutover.Helper.RollbackAfterFailure` | crates/gateway/src/bin/nblb-hermes-cutover.rs:899-908 | When done, the snapshot is live, Hermes runs and was seen healthy on it in the last step; without faults it is always done |
| `Cutover.Helper.WriteJournal` | crates/gateway/src/bin/nblb-hermes-cutover.rs:2761-2779 | The journal either moved exactly as asked or not at all; dying before the rename leaves the temporary file |
| `Cutover.Helper.ReportFailed` | crates/gateway/src/bin/nblb-hermes-cutover.rs:2161-2172 | Only QA runs without a committed generation are reported as failed, and only while they run; without a fault the run is not left running |
| `Cutover.Helper.SecondTrial` | crates/gateway/src/bin/nblb-hermes-cutover.rs:702-720 | Done exactly if every step went well; then Hermes was seen healthy on the snapshot, after it healthy and verified on the candidate, and last no secret was found, each in that order and on that very pair of files, and the candidate is live and runs |
| `Cutover.Helper.BothTrials` | crates/gateway/src/bin/nblb-hermes-cutover.rs:680-721 | Done exactly if every step went well; then the trace of what was looked at holds, in this order: no direct key beside the stopped candidate, the candidate healthy and verified, the snapshot healthy again, the candidate healthy and verified once more, no secret found |
| `Cutover.Helper.PrecommitOrAbandon` | crates/gateway/src/bin/nblb-hermes-cutover.rs:669-786 | A commit for the generation comes after both trials and the rehearsal, with no fault before it. A failure, if nothing else goes wrong, leaves the live pair as it was, Hermes running, the generation rolled back and its client without authorization |
| `Cutover.Helper.Commit` | crates/gateway/src/bin/nblb-hermes-cutover.rs:736-737 | Receipt and journal name the candidate client and the run; a failure leaves the generation open and uncommitted |
| `Cutover.Helper.AbandonCandidate` | crates/gateway/src/bin/nblb-hermes-cutover.rs:743-786 | Without further faults the snapshot is live again, Hermes runs, the generation is closed and its client revoked |
| `Cutover.Helper.RevokePrevious` | crates/gateway/src/bin/nblb-hermes-cutover.rs:1752-1764 | When done, no other Hermes client is active |
| `Cutover.Helper.ReportPassed` | crates/gateway/src/bin/nblb-hermes-cutover.rs:2116-2159 | PASS is told only with every older client revoked and the generation committed |
| `Cutover.Helper.Reconcile` | crates/gateway/src/bin/nblb-hermes-cutover.rs:2103-2114 | When done, the journal is `reconciled`, the run was told and all other clients are revoked |
| `Cutover.Helper.IssueClient` | crates/gateway/src/bin/nblb-hermes-cutover.rs:1615-1653 | The issued client is active and carries the label of the generation |
| `Cutover.Helper.Apply` | crates/gateway/src/bin/nblb-hermes-cutover.rs:637-819 | A generation gets committed, whatever happens to the helper afterwards, only if every step from the start to that commit went well and the trace shows both trials of its candidate, healthy and verified, with the healthy rehearsal between them. Success means every step went well and the candidate is live, reconciled and committed for this run; a committed failure still means the candidate; a failure before commit commits nothing, and if one step was all that went wrong, or none where the YAML is refused, the live pair is as before, Hermes not left stopped, the run not left running, and the candidate revoked in a rolled back generation unless no answer told of its issue; the generation is a new one and every other backup stays as it was; what a recovery needs to complete is kept at every crash point; without faults it succeeds exactly when the YAML rewrite does, and otherwise the live pair is as before |
| `Cutover.Helper.StartRun` | crates/gateway/src/bin/nblb-hermes-cutover.rs:352-368 | A commit or a success comes only after the preflight was found good before anything else was done; a run that fails uncommitted, with nothing else going wrong, is not left running and the live pair is as it was |
| `Cutover.Helper.FindActiveClientByLabel` | crates/gateway/src/bin/nblb-hermes-cutover.rs:1726-1736 | Finds an active client with the label exactly when there is one |
| `Cutover.Helper.RecoverGeneration` | crates/gateway/src/bin/nblb-hermes-cutover.rs:1366-1405 | A repaired generation ends as the candidate if its journal reached `committed`, else as the snapshot with its clients revoked; a committed one is repaired only by the build that committed it |
| `Cutover.Helper.Recover` | crates/gateway/src/bin/nblb-hermes-cutover.rs:1335-1408 | A completed recovery leaves nothing unresolved or staged, each generation resolved as its journal said; run again it changes nothing. It completes only if every backup is whole and a committed generation still to be reconciled was committed by this build, and without faults always then; that condition survives a crash anywhere in it |
| `Cutover.RecoverAfterAll` | crates/gateway/src/bin/nblb-hermes-cutover.rs:1335-1408 | Crash after crash: whatever applications and recoveries ran before and wherever they died, crashes inside recovery among them, a recovery without faults then completes, nothing is unresolved, and each generation that was ends as its journal said |
| `Cutover.Helper.HasMatchingGeneration` | crates/gateway/src/bin/nblb-hermes-cutover.rs:1294-1333 | The search removes leftover temporary files and nothing else; it finds the run's generation, or has seen every backup whole and every receipt of this build and of another run; a receipt of another build stops it |
| `Cutover.Helper.RetireBackup` | crates/gateway/src/bin/nblb-hermes-cutover.rs:935-1010 | Files of a backup go only for a reconciled generation behind its durable receipt, and all other backups stay. A receipt is written only if the provider's revocation was confirmed, for a reconciled generation of this build, and names its client and the hashes of its manifest. It completes only if the receipt it starts from is of this build and no temporary file is left in the backup, and without faults always then; that condition survives a crash anywhere in it |
| `Cutover.RetireAfterAll` | crates/gateway/src/bin/nblb-hermes-cutover.rs:935-1010 | However often a retirement died, and wherever, a rerun without faults ends with the generation gone, its receipt kept and all other backups as they were |
| `Cutover.Helper.FinishRetirement` | crates/gateway/src/bin/nblb-hermes-cutover.rs:1044-1075 | When done the backup directory is gone; other generations are untouched; a leftover temporary file stops it before anything is removed, and nothing else does without faults |
| `Cutover.QaRunIntent` | crates/gateway/src/bin/nblb-hermes-cutover.rs:1273-1283 | A start is intended exactly for a running run, the confirmation of a recovery exactly for a passed or failed run with a match, anything else is refused |
| `Cutover.PostLockDecision` | crates/gateway/src/bin/nblb-hermes-cutover.rs:1285-1292 | A start is decided exactly for a run still running under the lock, completion exactly for a passed run with a reconciled generation, anything else is refused |
| `Cutover.Helper.RunApply` | crates/gateway/src/bin/nblb-hermes-cutover.rs:292-368 | With the status and the match read before the lock arbitrary: it ends well only when a reconciled generation is committed for the run and the run has passed with it; where no committed generation is the run's and one was committed by another build, it fails and changes at most temporary files; without faults, for a run that keeps running with nothing to recover, it succeeds exactly if every backup is whole, every committed one of this build, and the YAML rewrite is accepted |
| `Cutover.Helper.Life` | crates/gateway/src/bin/nblb-hermes-cutover.rs:292-385 | Any sequence of commands, faults, upgrades of the helper and crashes between or within any two steps passes only through safe worlds, every generation committed in any of them went through its trials before, and nothing final is taken back: commitments, reports, revocations and retirement receipts stay, a backup goes only behind such a receipt, and clients without a cutover label are left alone |
| `Cutover.StopHalfRetired` | crates/gateway/src/bin/nblb-hermes-cutover.rs:1354-1362 | A concrete host: a helper dies after removing the first file of a retired backup; then a recovery without faults fails, and a rerun of the retirement succeeds |
| `Cutover.UpgradeTooEarly` | crates/gateway/src/bin/nblb-hermes-cutover.rs:1605-1611 | A concrete host: after the helper was replaced, a committed generation of the old build stops both an application for another run and its own retirement |
| `Cutover.LeaveTempBehind` | crates/gateway/src/bin/nblb-hermes-cutover.rs:1050-1059 | A concrete host: a temporary file left by a journal write lets the recovery succeed and stops the retirement |
| `ConfigRewrite.UpdateDotenvIsRight` | crates/gateway/src/bin/nblb-hermes-cutover.rs:1077-1099 | On text without carriage returns: idempotent, every line for the key holds the new value, there is one, all other lines are kept in order |
| `ConfigRewrite.RewriteDotenv` | crates/gateway/src/bin/nblb-hermes-cutover.rs:1077-1099 | The line loop computes the specified rewrite |
| `ConfigRewrite.YamlLinesAreRight` | crates/gateway/src/bin/nblb-hermes-cutover.rs:1101-1149 | Refused exactly for a tab or a field that stands twice in the block; otherwise each field stands once with its value, head, tail and other block lines are kept in order, and a second rewrite changes nothing |
| `ConfigRewrite.UpdateYamlIsRight` | crates/gateway/src/bin/nblb-hermes-cutover.rs:1101-1149 | The same on whole text without carriage returns: idempotent, and read back as intended |
| `ConfigRewrite.ModelLineIsAtRoot` | crates/gateway/src/bin/nblb-hermes-cutover.rs:1116-1118 | The check for an indented model line never fires |
| `ConfigRewrite.RewriteYaml` | crates/gateway/src/bin/nblb-hermes-cutover.rs:1101-1149 | The in-place loop over the line list computes the specified rewrite |
| `PatternScan.SeamIsExact` | crates/gateway/src/bin/nblb-hermes-cutover.rs:2442-2448 | What a read adds is exactly what the carried overlap and the read contain |
| `PatternScan.CountPatternsReader` | crates/gateway/src/bin/nblb-hermes-cutover.rs:2429-2451 | Fails exactly for an empty pattern or a failed read; otherwise counts, saturating, every occurrence in the concatenated input, overlapping ones included, however it was cut into reads |
| `PatternScan.CountPattern` | crates/gateway/src/bin/nblb-hermes-cutover.rs:2740-2745 | Counts the occurrences in one window |
| `Ledger.TransactionIsLawful` | crates/gateway/src/main.rs:859-997 | Every ledger transaction that commits keeps attempts numbered from one, at most the newest open, none open under a closed request, failovers one fewer than attempts; and rewrites no closed row and no release time |
| `Ledger.RunIsLawful` | crates/gateway/src/main.rs:859-997 | The same over every run of committing and failing transactions with cleanups anywhere between them |
| `Ledger.ClosedRequestIsFinal` | crates/gateway/src/evidence.rs:621-671 | A request leaves `started` at most once: from then on its row and all its attempts keep their values and none is open |
| `Ledger.FinishOpenKeepsConsistency` | crates/gateway/src/evidence.rs:621-671 | The recovery transaction closes the request with everything open under it |
| `Ledger.CleanupClosesExpired` | crates/gateway/src/main.rs:332-369 | Restart cleanup leaves no attempt, request or permit open for an owner without a lease |
| `Ledger.CleanupMeans` | crates/gateway/src/main.rs:332-369 | Open rows of an owner without a lease end as abandoned with the status they had, lose their owner and keep the rest; closed rows lose at most the owner, permits and requests without any owner are closed likewise, all others stay as they are |
| `Ledger.CleanupSparesLiveOwners` | crates/gateway/src/main.rs:332-369 | Restart cleanup changes nothing of live owners |
| `Evidence.Store.Transact` | crates/gateway/src/evidence.rs:388-419 | At every await, whatever its fate and whether or not a restart cleanup took this process for dead just before it, the rows stay lawful and the permit has exactly one responsible party unless its acquisition was never heard of |
| `Evidence.Store.AcquirePermit` | crates/gateway/src/main.rs:661-758 | The permit is held by nobody exactly when its insert committed and the answer was lost or dropped |
| `Evidence.Store.RunRetry` | crates/gateway/src/evidence.rs:49-74 | The retry task releases the permit exactly when one of its tries commits, and never moves a release time |
| `Evidence.PermitReleaseGuard.Transfer` | crates/gateway/src/evidence.rs:34-38 | The permit passes to the heir exactly if the guard was armed |
| `Evidence.PermitReleaseGuard.Drop` | crates/gateway/src/evidence.rs:41-47 | A guard dropped armed hands the permit to a retry task |
| `Evidence.RequestEvidence.Admit` | crates/gateway/src/evidence.rs:113-187 | Admission ends with a started request and its first attempt under one evidence value, or with nothing left to release but by a retry task; the permit is orphaned exactly when the acquiring answer was lost; and rows are left open with no evidence value to close them exactly when the starting transaction committed unheard |
| `Evidence.LosePermit` | crates/gateway/src/evidence.rs:150-155 | A concrete run: the acquiring insert commits, its answer is lost, and the permit stays held with nobody responsible |
| `Evidence.LoseStart` | crates/gateway/src/evidence.rs:156-166 | A concrete run: the starting transaction commits, its answer is lost, and request and attempt stay open with nobody to close them |
| `Evidence.RequestEvidence.ReleasePermitNow` | crates/gateway/src/evidence.rs:351-368 | Afterwards the permit is released, handed to a retry task, or still with the dropped evidence |
| `Evidence.RequestEvidence.Conclude` | crates/gateway/src/evidence.rs:259-331 | The evidence learns of a terminal commit exactly when it was answered, and nothing is rewritten after it |
| `Evidence.RequestEvidence.Drop` | crates/gateway/src/evidence.rs:388-419 | Dropping closes what is open with the armed values if that commits, and hands the permit to a retry task |
| `Replies.JudgedAsMeant` | crates/gateway/src/proxy.rs:544-1034 | Another key may be tried exactly after a missing credential, a failed send, a 401, 403 or status of the retryable list, a stream of the wrong type or not primed, and a body that broke off; for every kind of reply the end and the bytes of its row are the ones its branch records, a retryable status under its own class and any other as rejected, and the answer is the one that reply earns |
| `Failover.FinishRetryableOrTerminal` | crates/gateway/src/proxy.rs:1744-1804 | Another key is tried exactly if a further attempt is allowed, an eligible key is untried and every await goes well, and only after this attempt closed; otherwise the request ends, as rate limited exactly if every attempt ended in a retryable 429 |
| `Failover.Begin` | crates/gateway/src/proxy.rs:1809-1820 | A new attempt starts under the next number only after the previous one closed |
| `Failover.UpdateHealthGuarded` | crates/gateway/src/proxy.rs:777-811 | When priming fails the guard of the stream owns the request during the health update: if that goes wrong the guard closes what is open as an evidence failure, else the failover loop gets the request back as it was |
| `Failover.StartStreaming` | crates/gateway/src/proxy.rs:813-834 | The body gets a guard armed for the client's leaving only after the response start was recorded; otherwise the guard closes what is open and no success is recorded |
| `Failover.FirstUntried` | crates/gateway/src/main.rs:2878-2886 | The key chosen is the first eligible one not yet tried, and is missing exactly if there is none |
| `Failover.OneAttempt` | crates/gateway/src/proxy.rs:544-1034 | Another key is tried next exactly if the reply is one that allows it (said of the reply alone), a further attempt is allowed, an eligible key is untried, the request is in flight and every await after the policy's goes well; it is the first such key, and the attempt ended as its reply says. With all awaits going well any other end gives the answer its reply earns and, but for a stream, the row that reply is recorded as |
| `Failover.AcceptedJobIsRetriedExactly` | crates/gateway/src/proxy.rs:1432-1542 | An accepted (202) job goes to another key exactly when it was polled to an end, its body broke off, a further attempt is allowed, an eligible key is untried and every await goes well |
| `Failover.PostAcceptedTwice` | crates/gateway/src/proxy.rs:1432-1542 | A concrete request with two eligible keys: the job accepted on the first is posted to the second as well |
| `Failover.Forward` | crates/gateway/src/proxy.rs:240-1034 | The loop always answers from inside; attempts are on distinct keys, at most as many as allowed, one open at a time; each but the first is on the first eligible untried key after a reply that allows another attempt, and each but the last ended as the reply to it says. With all awaits going well the attempts end only where the last reply allows no other, no key is left, no attempt is allowed or no ninth row is left, and the last reply gets the answer and the row it earns; the answer is what the ledger holds |
| `Proxy.ServeBody` | crates/gateway/src/streaming.rs:499-664 | The body and all it owns are dropped: the terminal frame told the client what the ledger holds, the bytes are recorded if all awaits went well, and the row is closed if the last transaction committed |
| `Proxy.Handle` | crates/gateway/src/proxy.rs:1099-1690 | From admission to the last drop: only a release retry can remain responsible for the permit, attempts are on distinct keys, each but the first allowed by the reply before it, each ended as its reply says; a definite answer is what the ledger holds; a streamed body ended by the bare terminator left both rows succeeded with all its bytes, one ended by an error frame left no success unless an answer was lost, and no cancellation; the request row is closed or was never written unless the last transaction failed. With all awaits going well every listed key of a chat is tried before the request ends on replies that allow another, one key for images and videos, and the client gets what the last reply earns; and the permit is orphaned exactly when its acquisition was not heard of |
| `Proxy.CleanupEndsEverything` | crates/gateway/src/main.rs:338-369 | After the next cleanup that finds this process gone nothing of the request is open and no permit is held |
| `Streaming.StreamAttemptGuard.FinishRequestAndAttempt` | crates/gateway/src/streaming.rs:152-196 | The requested terminal is held exactly if its commit was answered; else the recovery is, or the drop is armed; rows in flight become nothing else but a cleanup's; a success answered as a failure is held exactly when the answer to its commit was lost |
| `Streaming.StreamAttemptGuard.Drop` | crates/gateway/src/streaming.rs:199-227 | The armed values are written if the drop's transaction commits; a failure never becomes a success or the reverse |
| `Streaming.BodyStream.FinishStreamFailure` | crates/gateway/src/streaming.rs:229-252 | The client is told the message of what went wrong. Rows in flight end failed with status 200 under the class of that event if its write goes well; else they fail for want of a record or a cleanup closes them, never as a cancellation, and the guard is armed to say so; the ledger holds no success; whoever closed the rows recorded the bytes of all frames, or they are armed; if the client leaves before the frame is sent, exactly its bytes are counted on top of those sent |
| `Streaming.BodyStream.FinishStreamSuccess` | crates/gateway/src/streaming.rs:450-497 | The bare terminator is sent exactly when the request is in flight and both awaits go well, and both rows succeeded then; where the accounting did not go well the client is told and the rows fail under that class, never cancelled; an error frame with a success in the ledger happens exactly when the accounting committed and the answer to the success commit was lost |
| `Streaming.BodyStream.Next` | crates/gateway/src/streaming.rs:508-662 | Each poll yields the next waiting frame without touching the ledger, or the one terminal frame, which tells what the rows hold; which of them depends only on what waits, what the provider sent and how the awaits go; an error frame carries the message of its event (a chunk that is refused, broken off, ended early, timed out, accounting), and the rows fail under the class of that event; a poll gives up only where the client left or an await was dropped; after the terminal frame the stream ends |
| `Streaming.BodyStream.Drop` | crates/gateway/src/streaming.rs:199-227 | Dropping the body records the bytes sent, as a cancellation if no terminal frame was; if the client left while the ledger was being asked to close, the count is that of the frames sent plus, unless the abandoned await came before it was counted, exactly the error frame in preparation |
| `Streaming.BodyStream.Serve` | crates/gateway/src/streaming.rs:499-664 | Over a whole life, for every upstream sequence and every fate of every await: no frame follows a terminal one; the bare terminator means the client got exactly what the validator makes of all the provider sent and the ledger holds success with every byte counted; an error frame carries the message of what went wrong, and the rows failed under the class of it, or for want of a record, or were cleaned up, never cancelled, unless they hold the success that was not heard of; any success counts the frames relayed and the terminator; unless the client left in the middle of an end, rows that get closed, by anyone but a restart cleanup or that lost success, record the bytes of all frames sent; they are closed if the last transaction commits |
| `Streaming.SucceedUnheard` | crates/gateway/src/streaming.rs:472-496 | A concrete stream: its client gets one data frame and an error frame, and the ledger holds `succeeded` with the bytes of the data frame and a terminator never sent |
| `Streaming.LeaveDuringFailure` | crates/gateway/src/streaming.rs:551-572 | A concrete stream: its client leaves while the failure of the stalled stream is being recorded, was sent one frame, and the ledger counts the error frame as well |
| `Streaming.PrimeStream` | crates/gateway/src/streaming.rs:40-64 | What is handed over represents all bytes of the chunks read, in their order, and waits with at least one data frame, none of which waited before the last chunk; it gives up only where the stream ends, breaks off or sends a refused chunk before that; the limit of 256 waiting frames is never reached |
| `SseFraming.EarliestStartEndsFirst` | crates/gateway/src/streaming.rs:276-283 | The boundary that starts first also ends first |
| `SseFraming.DelimiterIsStable` | crates/gateway/src/streaming.rs:276-283 | Bytes that arrive later never move a boundary already there |
| `SseLaws.DelimiterMeans` | crates/gateway/src/streaming.rs:276-283 | The boundary cut at is a whole one of either kind with none of either kind starting before it, and is missing exactly if the buffer holds none |
| `SseFraming.ChunkingDoesNotMatter` | crates/gateway/src/streaming.rs:270-291 | Within the buffer bound any split of the bytes is accepted or refused alike with the same frames, identity and counters, and the same state on success |
| `SseLaws.FrameIsJudged` | crates/gateway/src/streaming.rs:304-447 | A frame is accepted exactly if it is at most a mebibyte of well-formed text and empty, or comes before any terminator, has allowed lines only and a payload that is missing, the terminator or a continuation of the message; a continuation is emitted re-framed and fixes id and model, the terminator only closes, anything refused emits nothing |
| `SseLaws.LinesRejoin` | crates/gateway/src/streaming.rs:314-316 | Without carriage returns the lines of a frame hold no line feed and joined again they are the frame, but for a line feed at its end |
| `SseFraming.AcceptsItsOwnOutput` | crates/gateway/src/streaming.rs:304-447 | Accepted one-line payloads, re-sent as emitted with the terminator, are accepted again with the same frames, and all share one id and model |
| `SseFraming.SseValidator.Feed` | crates/gateway/src/streaming.rs:270-291 | The draining loop computes the specified step |
| `SseFraming.SseValidator.ValidateFrame` | crates/gateway/src/streaming.rs:304-447 | The line loop computes the specified validation |
| `SseFraming.SseValidator.Finish` | crates/gateway/src/streaming.rs:293-302 | Finished exactly with whitespace left, the terminator seen and a data frame counted |
| `Utf8.AsciiSplits` | crates/gateway/src/streaming.rs:308-308 | Cutting at an ASCII byte neither makes nor breaks well-formed UTF-8 |
| `Utf8.ValidExactly` | crates/gateway/src/streaming.rs:308-308 | Bytes are well-formed exactly if they are the encoding of some sequence of Unicode scalars (section 3 of RFC 3629) |
| `Vault.OperationKeepsSound` | crates/core/src/lib.rs:403-468 | Every operation keeps at most two keys in service, fingerprints and digests distinct, active names distinct, enabled only verified and unretired; nothing retired or revoked comes back |
| `Vault.OperationMeans` | crates/core/src/lib.rs:403-854 | Of a sound vault: exactly the operations whose conditions hold on the row of that id are accepted, a refused one changes nothing, and an accepted one does to that row what it is for and nothing to any other: a revoked client is inactive from then on, a rotated one has the new digest, a quarantined or deleted key is neither enabled nor verified, a verified one has no deadline, a failed one in service is put off to the later of its deadline and the clamped or doubled delay |
| `Vault.RevokedStaysOut` | crates/core/src/lib.rs:576-596 | Over every run: once revoked a client is inactive for good, with the time of the revocation |
| `Vault.OldTokenIsDead` | crates/core/src/lib.rs:598-620 | After a rotation no client answers to the old digest |
| `Vault.Vault.IdentifyDownstream` | crates/core/src/lib.rs:638-660 | A well-formed token is identified exactly if some client has its digest, and as that client with its state |
| `Vault.RunIsSound` | crates/core/src/lib.rs:719-854 | The same over every sequence of operations from an empty vault: rows keep their place and identity, what is retired or revoked stays so, counts only grow (deadlines: see the two rows on cooldowns) |
| `Vault.UnverifiedStaysOutFor` | crates/core/src/lib.rs:719-790 | A key that lost its verification, by quarantine or otherwise, is not enabled again by any run of operations that does not verify it |
| `Vault.AddedIsSound` | crates/core/src/lib.rs:426-441 | The new key takes a free place or that of a disabled key, which is retired |
| `Vault.CooldownStaysBounded` | crates/core/src/lib.rs:834-854 | After every run from an empty vault, accepted and refused operations alike, whose clock does not go back, every deadline is at most five minutes after the last time read |
| `Vault.CooldownNeverMovesEarlier` | crates/core/src/lib.rs:834-854 | Over every run: a deadline that no operation lifts is still there later and no earlier |
| `Vault.LiftedExactly` | crates/core/src/lib.rs:719-854 | A deadline is lifted exactly by a verification, deletion, quarantine or success of its key, or by a failure of a retired one; any other operation keeps it or moves it later |
| `Vault.DelayIsBounded` | crates/core/src/lib.rs:848-850 | A delay is within five minutes, and a back-off between one and 64 seconds |
| `Vault.Vault.AddKey` | crates/core/src/lib.rs:403-468 | The method changes the vault as specified, also when the file write fails after the change |
| `Vault.Vault.RecordFailure` | crates/core/src/lib.rs:834-854 | Counts, and moves the deadline of a key in service only later |
| `Vault.Vault.SetEnabled` | crates/core/src/lib.rs:719-736 | Enables only a verified key that is not cooling |
| `Vault.Vault.Run` | crates/core/src/lib.rs:403-854 | Every operation changes the vault as specified and, of a sound vault, tells of a success exactly if the operation is allowed and the file was written, or nothing had to be; an allowed one has its effect on the row of its id and leaves every other row alone, one not allowed changes nothing |
| `VaultSync.DeltaRefinesVault` | crates/gateway/src/main.rs:1198-1500 | If the rows are the previous vault, the delta of any operation commits and the rows are the new vault, slots distinct |
| `VaultSync.StaleFieldAborts` | crates/gateway/src/main.rs:1248-1317 | A changed field that is no longer what the caller knew aborts the whole delta |
| `VaultSync.StaleClientAborts` | crates/gateway/src/main.rs:1390-1445 | The same for a changed field of a client |
| `VaultSync.InterleavedDeltasAdd` | crates/gateway/src/main.rs:1318-1340 | Over interleaved deltas of several gateways the request counts of upstream keys sum exactly and keys in service keep distinct slots in {1, 2} |
| `VaultSync.DeltaAddsUses` | crates/gateway/src/main.rs:1446-1465 | A committed delta changes the request count of a downstream client by exactly what its gateway counted, whatever the row held |
| `VaultSync.InterleavedUsesAdd` | crates/gateway/src/main.rs:1446-1465 | Over interleaved deltas of several gateways the request counts of downstream clients sum exactly |
| `VaultSync.NewKeySyncs` | crates/gateway/src/main.rs:1216-1247 | After the replaced key was retired the new one finds a slot and no index objects |
| `VaultSync.SyncDatabaseDelta` | crates/gateway/src/main.rs:1198-1500 | The loops over keys, clients and profiles compute the delta of which the laws of `VaultMerge` and `VaultSync` speak: for arbitrary rows, every field its gateway did not change keeps the value of the row, every changed one is set, counts are added |
| `VaultMerge.DeltaMergesKey` | crates/gateway/src/main.rs:1248-1358 | Whatever the rows hold, a committed delta leaves each compared field of a key (enabled, verified, retired, deadline) as the row had it where its gateway changed nothing and sets it where it did, there only from the value the gateway knew; it adds its requests and failures exactly and keeps the slot |
| `VaultMerge.DeltaInsertsKey` | crates/gateway/src/main.rs:1216-1247 | A key its gateway added is inserted as it is, where no row had its id |
| `VaultMerge.InsertMeans` | crates/gateway/src/main.rs:1216-1247 | A key is inserted exactly if a slot is free, its id is new, its counts fit and no key in service has its name or fingerprint; it gets the lower free slot and no other row changes |
| `VaultMerge.DeltaMergesClient` | crates/gateway/src/main.rs:1390-1475 | The same of a client: state, digest, scopes and revocation are compared and set, uses added exactly, and the last use never moves back |
| `VaultMerge.DeltaTogglesCursors` | crates/gateway/src/main.rs:1477-1500 | A cursor is toggled exactly where its gateway moved it by an odd number of slots |
| `VaultMerge.KnownKeysCommit` | crates/gateway/src/main.rs:1248-1358 | The statements about known keys go through exactly if each row is there with every changed field as the gateway knew it and room for the counts |
| `VaultMerge.CountingCommits` | crates/gateway/src/main.rs:1318-1340 | A delta that only counts commits whatever other gateways wrote to the rows meanwhile |
| `VaultMerge.FieldsHoldLastWrites` | crates/gateway/src/main.rs:1248-1317 | After any deltas of any gateways, aborted ones among them, each compared field of a key holds what the last committed delta that changed it wrote: no stale copy puts an older value back |
| `VaultMerge.StateIsCompared` | crates/gateway/src/main.rs:1248-1317 | Whether a key is enabled, verified and retired, and its deadline, are such compared fields |
| `VaultMerge.ClientFieldsHoldLastWrites` | crates/gateway/src/main.rs:1390-1445 | The same of the compared fields of clients |
| `VaultMerge.RevokedRowStays` | crates/gateway/src/main.rs:1390-1445 | A revoked client stays revoked in the rows, whatever stale copies other gateways hold |
| `VaultMerge.RoutableExactly` | crates/gateway/src/main.rs:1248-1317 | Exactly when a row ends enabled though unverified or retired: an enabling meets a row that another gateway quarantined or retired, or a loss of verification or place meets a row that another gateway enabled |
| `VaultMerge.EnableQuarantined` | crates/gateway/src/main.rs:1248-1317 | A concrete delta: a gateway that still holds a quarantined key as verified enables it, and the row ends enabled and unverified |
| `VaultSync.VaultStore.Mutate` | crates/gateway/src/main.rs:496-522 | It tells of a success exactly if the operation is allowed, the file written, the delta accepted and the commit heard of; otherwise the vault is as before; the rows move exactly if the commit took effect, so without a success exactly when it was not heard of; a faithful copy stays faithful to the vault with the operations whose commit took effect |
| `VaultSync.MoveOnUnheard` | crates/gateway/src/main.rs:515-520 | A concrete mutation whose commit went unheard: the rows hold the new vault, the vault is put back, and the one no longer holds the other |
| `Router.Selector.Select` | crates/core/src/lib.rs:911-928 | The loop takes the first ready key from the cursor on and moves the cursor behind it |
| `Router.ChosenAsMeant` | crates/core/src/lib.rs:911-928 | The chosen key is ready and every key from the cursor up to it is not, indices taken modulo the length; the cursor ends one place behind it; none is chosen, and the cursor stays, exactly if no key is ready |
| `Router.RoundIsFair` | crates/core/src/lib.rs:911-928 | With m ready keys any m consecutive selections return each exactly once; none is returned exactly if m is zero |
| `Router.SlotsSimulateSelector` | crates/gateway/src/evidence.rs:485-525 | With both slots filled the query and its cursor flip take the selector's step |
| `Admission.LimitsHold` | crates/gateway/src/main.rs:661-758 | Under a fixed policy, over all runs of acquisitions, releases and cleanups with timestamps in any order, permits held and permits per minute and UTC day stay within their limits |
| `Admission.JudgedAsMeant` | crates/gateway/src/main.rs:661-758 | A permit is granted exactly to a usable credential for a model it may use with room among the permits of the minute, of the day and of those held, and otherwise the first of these that fails is the reason given |
| `Admission.EventMeans` | crates/gateway/src/main.rs:661-758 | A grant is held until a release or a cleanup names it and then never again; nothing else about a permit changes |
| `Admission.GrantKeepsWindows` | crates/gateway/src/main.rs:705-735 | Counting from the window start onward suffices even when later timestamps came first |
| `Admission.RetryLeavesTheMinute` | crates/gateway/src/main.rs:716-724 | The wait told is one to sixty seconds, leaves the minute, and is no second longer than that takes |
| `Admission.PermitTable.AcquirePermit` | crates/gateway/src/main.rs:661-758 | Grants or refuses as the ordered checks say, and appends exactly one permit on a grant and nothing otherwise |

## Left out

- Cutover.Helper.WriteJournal: does not let the write of `committed` fail after its rename, because `CutoverWorld.LateCommitFailure` shows the invariant false then.
- Cutover.Helper.IssueClient: the branch that rotates an existing client is left out; the label holds a fresh generation, so no such client exists.
- Evidence.RequestEvidence.Admit: the path without a database (a separate start and selection) is left out; nothing is recorded on it.
- Failover.Forward: the mock provider and the QA failure fixtures are left out, among them the one `fail` that closes only the parent row (`crates/gateway/src/proxy.rs:296`).
- Ledger.CleanupClosesExpired: the watchdog's separate cleanup statements (`crates/gateway/src/main.rs:1043-1060`) are left out; only the one transaction at start is modelled.
- SseFraming.AcceptsItsOwnOutput: payloads of several data lines, with a trailing carriage return or too long for one line are excluded, because they are emitted under one prefix.
- Cutover.Helper.RunApply: the two checks of the QA run's target against the server are a status that is read; the search before the lock is run, its answer taken as arbitrary.
- Replies.JudgedAsMeant: which update of the key's health a reply causes (quarantine, deadline, count) is not told apart; the update is one await.
- VaultSync.DeltaRefinesVault: provider receipts invalidated along with a key are left out; they are no part of the vault.
- VaultSync.SyncDatabaseDelta: the audit row, the default policy row of a new client and the receipt invalidation of the same transaction are left out; nothing in the vault reads them.
- ConfigRewrite.UpdateYamlIsRight: text with carriage returns is excluded, because they are dropped or kept depending on where they stand.
- HTTP handlers, headers, admin and public read endpoints, health responses: plumbing over libraries.
- AES-GCM, SHA-256, base64, UUIDs: opaque values; timings such as latency and time to first byte are not kept in the rows.
- 64-bit byte counters are narrowed to signed ones when stored; counts above 2^63-1 are not told apart.
- JSON field allowlists, modality checks, media sniffing: they are the arbitrary validation function or a verdict on a reply.
- Ownership, mode, mount and symlink checks, the docker allowlist, temporary files outside the backup directories: operating system detail.
- The candidate's `.env` differs from the snapshot in the credential only: what the dotenv rewrite does to text is proved apart from the cutover.
- Metric rollup, retention, QA server handlers, migrations, front ends and bootstrap binaries.
