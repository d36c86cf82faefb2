# Relay authority state

A Dafny model of the authority state of the Relay: who is paired, which bootstrap attempt owns which
hidden workspace, which certificate was issued for whom, and what of this survives a crash. The
decisions are bounded maps, generations, deadlines and small files that are compared and replaced; the
model keeps exactly those and proves what they promise over whole runs.

`dafny verify dfyconfig.toml` verifies the project.

## How it is built

Each component has a specification written as functions of the state, the clock and the faults of one
call; the classes whose fields the Relay updates in place are proved equal to those functions, method by
method and loop by loop (the straight-line methods have no row below, because the contract of each is that
equality); and the promises are theorems about runs, that is, about every sequence of operations, faults,
crashes and restarts from the empty state. What an operation accepts is stated against the calls and
answers before it (the `Answers` modules, `FailureTheorems`, `AllowlistStandings`), not by the checks of
its own body.

- `AuthorityStore`, `StoreProtocol`, `StoreAtomicity`, `RecordEnvelope`: the compare-and-commit record files
  (`src/authority_store.rs`). One operation at a time with a failure point at every host call; then many
  handles interleaved at every host call, with crashes that leave a stale lock; then the sealed envelope.
- `PairingAuthority`, `PairingCodecProofs`, `PairingProofs`, `PairingTheorems`, `RevocationTheorems`,
  `ChallengeTheorems`, `FailureTheorems`, `LeaseTheorems`, `IrohRelay`: pairing records, challenge
  windows, failure budgets, whole-map commits, restore, runtime epochs and connection leases (`src/iroh_endpoint.rs`). Every commit may fail,
  or be installed and reported as unknown.
- `Windows`, `StartLimiter`: sliding windows, and the limiter that verifier and runtime share.
- `BootstrapVerifier`, `BootstrapVerifierRuns`, `BootstrapVerifierTheorems`,
  `BootstrapVerifierWorkspaces`, `BootstrapVerifierAnswers`, `RelayBootstrapVerifier`: the HDB1 verifier (`src/bootstrap.rs`), with
  workspace and issuance failures chosen freely at every call.
- `BootstrapRuntime`, `BootstrapRuntimeCodec`, `BootstrapRuntimeRuns`, `BootstrapRuntimeTheorems`,
  `BootstrapRuntimeDurability`, `BootstrapRuntimeAnswers`, `BootstrapRuntimeReports`,
  `BootstrapRuntimeWitnesses`, `RelayBootstrapRuntime`: the
  production runtime (`src/bootstrap_runtime.rs`) with its state file.
- `Issuance`, `IssuanceRuns`, `IssuanceSingleUse`, `IssuanceMap`, `IssuanceAnswers`,
  `PersistentIssuanceResults`: durable issuance results
  (`src/issuance.rs`), edited by any number of handles on one file.
- `Allowlist`, `AllowlistStandings`, `PersistentAllowlist`, `RelayEnrollment`: the App allowlist, its shared file and the
  enrollment fake (`src/enrollment.rs`, `src/allowlist.rs`).
- `Base64`, `Bytes`, `WireFrames`, `SessionWire`, `SessionPayloads`, `CertificateWire`: frames, stream
  reads, session payloads, hexadecimal and certificate-chain fields, and the size of the frames that
  carry a chain.

## Assumptions

- SHA-256, random identifiers and tokens are collision-free. The record digest is an arbitrary function
  `hash`, with injectivity assumed only where stated; minted identifiers are named by the counter they
  were minted from.
- Unsigned 64-bit arithmetic is written out: checked additions refuse above `U64_MAX`, the shift of the
  runtime epoch drops high bits.
- A file is an optional value replaced as a whole. A crash ends a process and leaves every file as it is;
  a power loss that undoes a rename whose directory sync failed is not modelled. Clock readings, minted
  codes, created workspaces and failures are parameters of each operation. Clocks may run backwards: a
  theorem that needs one that does not says so (`Monotone`), and one that bounds it says how (`Within`).
- Requests of the HDB1 verifier have passed their constructor's checks. Identifiers minted by the runtime
  avoid those in use, as its mint loop ensures (`Mintable`).
- One process at a time uses the pairing store and the bootstrap state file.

## Where the code differs from what one would expect

Each of these is kept as the code has it and carries its own lemma or branch.

- `revoke_peer` returning `Ok(false)` is not always durable. A failed revocation of the paired peer and a
  pairing installed but reported as unknown both leave the disk pairing a peer that memory no longer
  knows (`FalseAfterFailureForgets`, `FalseAfterUnknownPairingIsNotDurable`). It is durable exactly when
  the call committed a revocation itself or no such call is outstanding
  (`FalseIsDurableExactlyWhenNothingIsHidden`).
- After an identity replacement a freshly challenged peer starts at generation 1, below the aggregate, so
  pairing is refused unless the replaced aggregate was 1 (`ChallengeThenPairAfterReplacement`).
- `AuthorityFileLock::acquire` leaves its lock file behind when writing or syncing it fails, which blocks
  the store like a crash does (`AuthorityStore.CommitFile`, `StaleLockBlocksForever`).
- The checked shift of the runtime epoch does not detect lost high bits
  (`GenerationsCollideExactlyModulo`).
- The orphan retry does not look at fences; used on a fenced session it blocks that session for good
  (`ClosingALiveWorkspaceBlocksItsSessionForever`).
- In the runtime the code limit takes effect only when the workspace closes: any number of wrong codes may
  be compared before the correct one is accepted (`WrongCodesExactly`,
  `AnyNumberOfWrongCodesThenAccepted`). A confirmation retried after a failed persist reports success
  without writing, and is durable exactly when some persist has written it since
  (`RetriedConfirmationIsLost`, `ConfirmationIsDurableExactlyWhenWritten`). A state file between 64 and
  256 KiB can be written but not read (`RestoreInvertsPersist`, `RestartFailsOnlyOnSize`).
- Dropping the lease of an unpaired peer forgets its challenge window (`DropRestartsTheWindow`).
- Handles of the issuance store read their own clocks. Single use of an authorization survives readings up
  to 11 hours, 57 minutes and 30 seconds behind the latest one and is lost beyond
  (`AuthorizationsAreSingleUse`).
- `mark_issued` ignores a candidate attached earlier (`FinalizationForgetsCandidate`).
- A certificate shared by two App entries survives the revocation of one
  (`SharedFingerprintSurvivesRevocation`).
- The enrollment certificate is documented to carry the generation written with its entry; it carries the
  generation before it (`CertificateGenerationTrailsEntry`).

## Model

| member | source | states |
|---|---|---|
| `AuthorityStore.CommitInstallsSuccessorOrNothing` | src/authority_store.rs:202-247 | A commit leaves the record alone or installs exactly the successor of the expected revision; `Ok` means installed, and only `Unknown` may hide an installed record; a locked file is never touched |
| `AuthorityStore.FileAuthorityStore.Load` | src/authority_store.rs:163-185 | Reading yields the whole record, or `Unavailable` whenever the lock file exists or the read fails |
| `AuthorityStore.FileAuthorityStore.Commit` | src/authority_store.rs:202-247 | The in-place commit, call by call, is the atomic compare-and-commit for every fault, including a lock file that is left behind |
| `AuthorityStore.FileAuthorityStore.Delete` | src/authority_store.rs:264-299 | Deletion only of the expected revision; a missing record is reported as such; a failed directory sync is `Unknown` although the record is gone |
| `StoreProtocol.StepKeepsExclusion` | src/authority_store.rs:529-562 | In every interleaving the lock file names exactly the one handle inside its critical section, and what that handle knows about the file stays true |
| `StoreProtocol.StepKeepsChain` | src/authority_store.rs:224-245 | Every interleaved step extends the chain of installed records by its successor or not at all |
| `StoreProtocol.StepKeepsCommits` | src/authority_store.rs:202-247 | Reported revisions keep rising, and none is ahead of the file |
| `StoreProtocol.RunKeepsInv` | src/authority_store.rs:163-365 | The invariants of the interleaved store hold in every run of any number of handles with crashes between any two host calls |
| `StoreProtocol.InstallsAreConsecutive` | src/authority_store.rs:224-245 | Between deletions each installed record has a revision one above the record it replaced |
| `StoreProtocol.ReportedRevisionsAreDistinct` | src/authority_store.rs:202-247 | No two commits that report success report the same revision of one deletion era |
| `StoreProtocol.LoadsReturnInstalledRecords` | src/authority_store.rs:163-185 | A load returns a record that was installed whole, in the era in which it is returned |
| `StoreProtocol.StaleLockBlocksForever` | src/authority_store.rs:529-562 | From any reachable state with a stale lock: nothing is ever installed or deleted again, and every reply is a refusal but for one load each of the handles that had already passed their lock probe |
| `StoreProtocol.CrashInsideBlocksForever` | src/authority_store.rs:529-562 | In any run a crash between taking and removing the lock leaves exactly that state, with the file as the crash found it |
| `StoreAtomicity.CommitAloneIsAtomic` | src/authority_store.rs:202-247 | The host calls of one undisturbed commit have exactly the effect and reply of the atomic commit, for every fault |
| `StoreAtomicity.RequestAloneIsAtomic` | src/authority_store.rs:202-299 | The same for a deletion: what the interleaved model splits is, alone, the operation of the store |
| `StoreAtomicity.LoadAloneIsAtomic` | src/authority_store.rs:163-185 | The same for a load, whoever holds the lock |
| `RecordEnvelope.DecodeOfSeal` | src/authority_store.rs:225-244 | Every committable record, with labels of the accepted grammar, is read back from the envelope it was sealed in |
| `RecordEnvelope.AcceptedIsSealed` | src/authority_store.rs:405-436 | Every envelope the decoder accepts is the one that sealing its content would have produced |
| `RecordEnvelope.DigestInputsAgree` | src/authority_store.rs:439-457 | The length-prefixed integrity input is injective: equal inputs mean equal labels, numbers and payload |
| `RecordEnvelope.IntegrityIdentifiesEnvelope` | src/authority_store.rs:405-457 | Under a collision-free digest two accepted envelopes with one integrity value have the same content |
| `RecordEnvelope.FeedDigest` | src/authority_store.rs:439-457 | The running hasher is fed exactly the integrity input |
| `RecordEnvelope.FeedLabels` | src/authority_store.rs:442-450 | The label loop feeds each label behind its own length |
| `Base64.DecodeOfEncode` | src/authority_store.rs:405-436 | Both base64 alphabets of RFC 4648, sections 4 and 5: decoding inverts encoding on all byte strings |
| `Base64.EncodeOfDecode` | src/bootstrap_wire.rs:867-895 | Only canonical text is accepted (RFC 4648, section 3.5): whatever decodes re-encodes to itself |
| `PairingCodecProofs.RestoreInvertsCommit` | src/iroh_endpoint.rs:1016-1167 | Whatever a commit installs is restored under the same identity to exactly the listed paired and revoked relations, with fresh challenge fields and a next attempt id above every stored one |
| `PairingCodecProofs.RestoreSound` | src/iroh_endpoint.rs:1068-1167 | Every sound record is accepted by a restart under its own identity, unchanged on disk |
| `PairingCodecProofs.RecordForIsSound` | src/iroh_endpoint.rs:1016-1053 | What is written satisfies every check a later restore makes |
| `PairingCodecProofs.DiskPairsExactlyThePaired` | src/iroh_endpoint.rs:1016-1053 | The written record pairs a peer exactly when the candidate map pairs it |
| `PairingCodecProofs.EncodeSucceeds` | src/iroh_endpoint.rs:1016-1053 | Encoding refuses no candidate that the running process can build |
| `PairingCodecProofs.CorruptExactlyWhenInconsistent` | src/iroh_endpoint.rs:1080-1144 | A readable record is refused as corrupt if and only if it is empty of a generation, too long, names a peer twice, has a zero field or a generation above its aggregate, or none at it |
| `PairingCodecProofs.RestoredAttemptsAreFresh` | src/iroh_endpoint.rs:1130-1167 | Whatever the file holds, a restart accepts it only with an attempt counter above every attempt in it |
| `IrohRelay.ListRelations` | src/iroh_endpoint.rs:1019-1046 | The loop lists each relation once, in peer order, and refuses a map with a relation that cannot be stored |
| `IrohRelay.CollectRelations` | src/iroh_endpoint.rs:1101-1144 | The restore loop accepts exactly the relation lists without duplicates or malformed relations, and accumulates the map and both maxima |
| `PairingProofs.CommitKeepsDisk` | src/iroh_endpoint.rs:1516-1545 | A commit, whatever its outcome, keeps the file sound, never lowers its revision or generation, and if it installs, pairs exactly whom the candidate pairs |
| `PairingProofs.RunKeepsInv` | src/iroh_endpoint.rs:1170-1609 | In every run with failed and unknown commits, lease drops, crashes and restarts each peer paired in memory is paired on disk, versions known to memory are the file's or older, and the registry stays within its limits |
| `PairingProofs.PairedInMemoryIsPairedOnDisk` | src/iroh_endpoint.rs:1401-1545 | In every reachable state a peer paired in memory is recorded as paired and not revoked on disk |
| `PairingProofs.DiskNeverRegresses` | src/iroh_endpoint.rs:1516-1545 | The aggregate generation and the revision on disk never decrease over commits and restarts |
| `PairingProofs.RestartNeverFindsCorruption` | src/iroh_endpoint.rs:1068-1167 | No reachable file makes a restart fail as corrupt, under any identity generation and fault |
| `PairingTheorems.RevocationIsDurable` | src/iroh_endpoint.rs:1465-1513 | After `Ok(true)` the peer stays unpaired in memory and on disk through every later run until it is paired again |
| `PairingTheorems.RestartPairsExactlyTheDisk` | src/iroh_endpoint.rs:1068-1167 | A restarted process pairs exactly the peers its file pairs |
| `PairingTheorems.PairingsAnswerTruly` | src/iroh_endpoint.rs:1401-1453 | After any run a pairing reporting true leaves the peer paired in memory and on disk, under the next generation and a fresh attempt identifier; false exactly when the registry is full without the peer; an error pairs nobody |
| `PairingTheorems.RevocationsAnswerTruly` | src/iroh_endpoint.rs:1465-1513 | A revocation reports whether memory paired the peer, never leaves it paired in memory, and touches no other peer; a revoked pairing takes the next generation and a fresh attempt identifier |
| `RevocationTheorems.RunExplains` | src/iroh_endpoint.rs:1401-1513 | In every run the disk pairs exactly the peers that memory pairs or whose pairing a failed call has hidden, as told from the calls and answers of the process and, for an `Unknown` answer, from whether the file changed |
| `RevocationTheorems.FalseIsDurableExactlyWhenNothingIsHidden` | src/iroh_endpoint.rs:1465-1513 | `Ok(false)` is durable through every later run if and only if the call committed a revocation itself or no earlier failed call of this process has hidden a pairing of that peer |
| `PairingTheorems.FalseAfterFailureForgets` | src/iroh_endpoint.rs:1465-1609 | A run from nothing that hides it: a failed revocation and a lease drop; the next revocation reports false while the disk, and the next restart, still pairs the peer |
| `RevocationTheorems.FalseAfterUnknownPairingIsNotDurable` | src/iroh_endpoint.rs:1401-1513 | Another run from nothing, without a lease: a pairing installed but reported as unknown, whose revocation finds nothing to revoke, and a restart that pairs the peer |
| `PairingTheorems.RegressionUnreachable` | src/iroh_endpoint.rs:1525-1527 | With one identity and no failed revocation no commit is ever refused as a generation regression |
| `PairingTheorems.PairingRefusedExactlyBelowAggregate` | src/iroh_endpoint.rs:1516-1545 | Pairing is refused as corrupt exactly when the new generation and those of all other listed peers are below the aggregate |
| `PairingTheorems.ChallengeThenPairAfterReplacement` | src/iroh_endpoint.rs:1145-1161 | After an identity replacement, challenge then pair succeeds exactly when the replaced aggregate was 1 |
| `PairingTheorems.PairAfterChallenge` | src/iroh_endpoint.rs:1401-1453 | A peer first observed at generation 1 and alone in the registry can be paired exactly while the aggregate is at most 2 |
| `LeaseTheorems.LeasesMatchActiveEntries` | src/iroh_endpoint.rs:1286-1317 | In every run leases and active entries are in bijection, within the connection limit, one per peer |
| `LeaseTheorems.DropRemovesOnlyItsOwn` | src/iroh_endpoint.rs:1593-1609 | A lease drop removes exactly its own lease and entry, and its peer's record exactly when that is neither paired nor revoked; everything else stays |
| `LeaseTheorems.ShutdownAdmitsNobody` | src/iroh_endpoint.rs:1549-1551 | After a shutdown no later call of the process is admitted and its leases only drain, whatever else is called |
| `LeaseTheorems.FenceAdvances` | src/iroh_endpoint.rs:1170-1212 | A reported epoch is new; an unreported commit may burn an epoch but never repeats one |
| `LeaseTheorems.CorruptFenceIsRefused` | src/iroh_endpoint.rs:1170-1212 | A fence with a zero generation, or one its payload contradicts, is never advanced and stays as it is |
| `LeaseTheorems.RunKeepsFence` | src/iroh_endpoint.rs:1170-1317 | Epochs and per-epoch counters keep every admission distinct over restarts |
| `LeaseTheorems.ConnectionGenerationsRise` | src/iroh_endpoint.rs:1286-1317 | Below 2^32 epochs and admissions each, connection generations rise strictly over all restarts |
| `LeaseTheorems.GenerationsCollideExactlyModulo` | src/iroh_endpoint.rs:1294-1298 | Without that bound two admissions share a generation exactly when their epochs agree modulo 2^32 |
| `ChallengeTheorems.ChallengesAreLimited` | src/iroh_endpoint.rs:1350-1378 | While a process remembers a peer it is challenged at most six times in any 60 seconds, however challenges, failures and pairings interleave |
| `ChallengeTheorems.RefusedOnlyAfterThree` | src/iroh_endpoint.rs:1364-1378 | A remembered, unpaired peer is refused a challenge only after three were granted in the last 60 seconds |
| `ChallengeTheorems.RunTracks` | src/iroh_endpoint.rs:1350-1378 | In every such run the fixed window accounts for the peer's latest challenges, and all earlier ones lie a whole window before it |
| `ChallengeTheorems.GrantAccounts` | src/iroh_endpoint.rs:1368-1377 | Reopening or counting the window loses no challenge that still matters |
| `ChallengeTheorems.SixInOneWindow` | src/iroh_endpoint.rs:1368-1377 | The bound is reached, and not exceeded, across the border of two windows |
| `ChallengeTheorems.DropRestartsTheWindow` | src/iroh_endpoint.rs:1593-1609 | Why the bound needs the peer to be remembered: in a run from nothing six challenges, a lease drop and a reconnection, and a seventh is granted within the same 60 seconds |
| `FailureTheorems.FifthFailureIsTheLast` | src/iroh_endpoint.rs:1381-1398 | After any run the next failure of a peer is answered with permission to go on if and only if the peer is remembered and this is not the fifth or a later failure since its record, its last granted challenge, or its last effective pairing or revocation, counted from calls and answers |
| `FailureTheorems.FailureIsRemembered` | src/iroh_endpoint.rs:1381-1392 | A failure remembers a new peer exactly when the registry, the counter and the clock allow it |
| `StartLimiter.Retain` | src/bootstrap.rs:1424-1431 | Only starts younger than the window are kept |
| `StartLimiter.RetainIsSuffix` | src/bootstrap.rs:1424-1431 | On a nondecreasing history, what is kept is its end and everything forgotten is stale |
| `StartLimiter.RetainHistory` | src/bootstrap.rs:1424-1431 | The retain loop over one history |
| `StartLimiter.PruneStarts` | src/bootstrap.rs:1424-1431 | All histories pruned in place and the emptied ones dropped, in whatever order the peers are visited |
| `StartLimiter.PruneTracks` | src/bootstrap.rs:1424-1431 | Pruning under a nondecreasing clock loses nothing that still counts |
| `StartLimiter.PassTracks` | src/bootstrap.rs:838-842 | Letting a start pass with fewer than three kept keeps the full history spaced by whole windows |
| `StartLimiter.AtMostThreePerWindow` | src/bootstrap.rs:826-842 | Any 900-second window contains at most three passed starts of one peer |
| `BootstrapVerifierRuns.RunKeepsFencing` | src/bootstrap.rs:811-1421 | In every run fences and attempts that have not ended are in bijection, at most eight, ids and workspaces are distinct |
| `BootstrapVerifierRuns.StartKeepsFencing` | src/bootstrap.rs:811-904 | A start, admitted or refused, keeps that bijection |
| `BootstrapVerifierRuns.SubmitKeepsFencing` | src/bootstrap.rs:917-1007 | A submission, whatever fails in it, keeps that bijection |
| `BootstrapVerifierRuns.MarkTerminalReleasesOnlyItsOwn` | src/bootstrap.rs:1289-1302 | Removing the fence by session name never drops another attempt's fence |
| `BootstrapVerifierRuns.RetentionCheckNeverFires` | src/bootstrap.rs:820-824 | After the sweep at most eight attempts remain, so the 256-record check can never refuse |
| `BootstrapVerifierTheorems.AtMostOneCertificatePerAttempt` | src/bootstrap.rs:917-1007 | No attempt is certified twice in any run, and serials rise strictly |
| `BootstrapVerifierTheorems.AtMostFiveWrongCodes` | src/bootstrap.rs:962-977 | No attempt ever has more than five wrong codes compared |
| `BootstrapVerifierTheorems.IssuedIsRecoverableForADay` | src/bootstrap.rs:1133-1216 | Under a nondecreasing clock an issued certificate is recovered unchanged, without another issuance, by its exact binding for 24 hours, and its session stays fenced |
| `BootstrapVerifierAnswers.CertifiedExactlyWhenEntitled` | src/bootstrap.rs:917-1007 | After any run a submission is answered with a certificate if and only if it names an answered start that still waits, with the challenge that start returned, its secret and a clock reading in time, and neither close nor issuer fails; the certificate is for the binding of that start |
| `BootstrapVerifierAnswers.ForeignChallengeIsRefused` | src/bootstrap.rs:944-949 | Another challenge for a waiting start, and nothing else, is answered as invalid, and changes nothing |
| `BootstrapVerifierAnswers.WrongCodeIsAnotherSecret` | src/bootstrap.rs:950-975 | What counts as a wrong code is exactly another secret, with the right challenge, in time, while the start waits |
| `BootstrapVerifierAnswers.ReconcileAnswersOnlyItsCore` | src/bootstrap.rs:1099-1216 | After any run every answer of a reconcile names the approval and the binding of an answered start, in full or as far as the wire carries it, and is true of it: pending with its deadline and no certificate, recovered with what a submission was answered in the last 24 hours, refused once it waits no longer, by the code that tells rejection from lapse |
| `BootstrapVerifierAnswers.ForeignBindingIsRefused` | src/bootstrap.rs:1114-1155 | A reconcile that names the approval of a start but not its binding is refused and changes nothing |
| `BootstrapVerifierAnswers.OpeningsAreNew` | src/bootstrap.rs:843-904 | Every answered start returns an identifier no start returned before |
| `BootstrapVerifierAnswers.RefusedStartsLeaveNoWorkspace` | src/bootstrap.rs:855-880 | An answered start keeps exactly one new workspace, of its session; a refused one keeps none, unless the workspace it could not read back would not close |
| `BootstrapVerifierAnswers.FirstAttemptSucceeds` | src/bootstrap.rs:811-1216 | From nothing the first start is answered, certified by its secret and recovered |
| `BootstrapVerifierTheorems.ReconcileNeverOverflows` | src/bootstrap.rs:1188-1212 | The deadline overflow and the missing-metadata branch of a reconcile are unreachable |
| `BootstrapVerifierTheorems.StartsAreLimited` | src/bootstrap.rs:826-842 | In every run under a nondecreasing clock: three starts per peer and 900 seconds |
| `BootstrapVerifierTheorems.TrackedPeersAreLimited` | src/bootstrap.rs:826-842 | In every run, whatever the clock reads: at most 256 tracked peers, no empty history |
| `BootstrapVerifierTheorems.StepMovesQuietly` | src/bootstrap.rs:1041-1421 | No operation but a submission issues, counts a wrong code, or takes an attempt backwards |
| `BootstrapVerifierWorkspaces.RunKeepsHousing` | src/bootstrap.rs:811-1421 | Every attempt awaiting its code or cleanup has its workspace, in every run whose orphan retries respect their documented precondition |
| `BootstrapVerifierWorkspaces.EveryWorkspaceIsOwnedOrOrphaned` | src/bootstrap.rs:811-1421 | Each open workspace belongs to exactly one such attempt of its session or is an orphan of an unfenced one; a session has at most one |
| `BootstrapVerifierWorkspaces.RetryOrphanKeepsHousingExactlyWhenUnfenced` | src/bootstrap.rs:1070-1086 | The orphan retry is harmless exactly when it closes nothing or the session has no fence |
| `BootstrapVerifierWorkspaces.ClosingALiveWorkspaceBlocksItsSessionForever` | src/bootstrap.rs:1070-1086 | What the precondition protects: otherwise no later operation ever releases the session and every start for it fails |
| `RelayBootstrapVerifier.RelayBootstrapVerifier.ReapExpired` | src/bootstrap.rs:1355-1389 | The loop ends all due attempts as if at once, whatever order it visits them in, and counts the ended |
| `RelayBootstrapVerifier.RelayBootstrapVerifier.PruneRetainedAttempts` | src/bootstrap.rs:1392-1421 | The loop removes all removable attempts and only fences that still point at them |
| `RelayBootstrapVerifier.RelayBootstrapVerifier.FindByApproval` | src/bootstrap.rs:1142-1150 | The search over attempts finds an attempt with the approval exactly when there is one |
| `BootstrapRuntimeCodec.RecordsRestore` | src/bootstrap_runtime.rs:726-836 | Every record of a sound state passes validation; the core approvals come back exactly and pending work becomes orphans |
| `BootstrapRuntimeCodec.RestoreInvertsPersist` | src/bootstrap_runtime.rs:642-769 | A persisted state is restored exactly, unless its file is larger than the 64 KiB that can be read, and then never |
| `BootstrapRuntimeCodec.PendingWorkspacesAreRestored` | src/bootstrap_runtime.rs:758-765 | The workspace of a pending attempt or approval is the orphan a restart will close |
| `BootstrapRuntimeRuns.SweepKeepsInv` | src/bootstrap_runtime.rs:1476-1519 | The sweep at the head of every operation keeps the invariant and, when it succeeds, leaves no orphan |
| `BootstrapRuntimeRuns.SubmitKeepsInv` | src/bootstrap_runtime.rs:1047-1143 | A submission keeps what is tracked, written and confirmed, whatever fails in it |
| `BootstrapRuntimeRuns.ConfirmKeepsInv` | src/bootstrap_runtime.rs:1228-1271 | A confirmation keeps it too, with the deadline zero on both sides of the file |
| `BootstrapRuntimeRuns.RunKeepsInv` | src/bootstrap_runtime.rs:899-1458 | In every run with crashes and restarts one workspace at most is tracked, owned workspaces are tracked or leaked, the file is one a sound state wrote, and reported confirmations are in memory and on file |
| `BootstrapRuntimeRuns.AtMostOneWorkspaceTracked` | src/bootstrap_runtime.rs:899-1458 | At most one workspace is tracked, active sessions are exactly those of live work, and every workspace created and not closed is tracked unless a rollback close failed |
| `BootstrapRuntimeRuns.RestartFailsOnlyOnSize` | src/bootstrap_runtime.rs:618-639 | After any run a restart that can read its file is refused exactly when the file outgrew 64 KiB |
| `BootstrapRuntimeTheorems.KeptApprovalsAreNeverLost` | src/bootstrap_runtime.rs:1228-1271 | A confirmation whose persist was reported is never reaped or lost, over crashes and restarts |
| `BootstrapRuntimeTheorems.ReportedConfirmationIsDurable` | src/bootstrap_runtime.rs:1228-1271 | Reported success for an unconfirmed approval is durable for every later run |
| `BootstrapRuntimeDurability.StepFollows` | src/bootstrap_runtime.rs:899-1458 | Every operation leaves the state file alone or ends with it holding exactly what memory would write, and never undoes a confirmation in memory |
| `BootstrapRuntimeDurability.RunAccounts` | src/bootstrap_runtime.rs:642-836 | In every run the file confirms exactly what memory confirms, less the confirmations no persist has written |
| `BootstrapRuntimeDurability.PersistChangesFileWhileUnwritten` | src/bootstrap_runtime.rs:642-723 | Any successful persist writes all of them |
| `BootstrapRuntimeDurability.ConfirmationIsDurableExactlyWhenWritten` | src/bootstrap_runtime.rs:1228-1271 | After any run a reported confirmation is durable if and only if the approval was unconfirmed before the call or some persist has written it since memory confirmed it |
| `BootstrapRuntimeDurability.DurableIsRestored` | src/bootstrap_runtime.rs:726-769 | What is durable is found confirmed by every restart, after any later run, that can read the file |
| `BootstrapRuntimeDurability.UnwrittenIsLostInACrash` | src/bootstrap_runtime.rs:1262-1270 | What is unwritten is not confirmed any more after a crash and restart |
| `BootstrapRuntimeWitnesses.RetriedConfirmationIsLost` | src/bootstrap_runtime.rs:1262-1270 | A run from nothing that shows the loss: the persist fails, the retry reports success, and the restarted process has the approval unconfirmed |
| `BootstrapRuntimeTheorems.WrongCodesExactly` | src/bootstrap_runtime.rs:1079-1099 | The exact count of compared wrong codes in any run; more than five exactly when the workspace would not close twice at the limit, or once and a later wrong code ended the attempt |
| `BootstrapRuntimeWitnesses.AnyNumberOfWrongCodesThenAccepted` | src/bootstrap_runtime.rs:1079-1143 | For every number there is a run that compares that many wrong codes for one attempt and then accepts and issues for the correct one |
| `BootstrapRuntimeTheorems.StartsAreLimited` | src/bootstrap_runtime.rs:949-957 | Within one process the runtime's limiter gives the same window bound |
| `BootstrapRuntimeAnswers.CertifiedOnlyWhenEntitled` | src/bootstrap_runtime.rs:1047-1143 | In every run, restarts included, a certificate is answered only to the peer of an answered start, with its challenge and secret, in time |
| `BootstrapRuntimeAnswers.EntitledIsCertified` | src/bootstrap_runtime.rs:1047-1143 | While the attempt waits, such a submission whose workspace closes issues |
| `BootstrapRuntimeAnswers.ForeignSubmissionIsRefused` | src/bootstrap_runtime.rs:1057-1070 | Another peer or challenge is refused and changes nothing |
| `BootstrapRuntimeAnswers.AppsRestOnConfirmedApprovals` | src/bootstrap_runtime.rs:1274-1371 | In every run, restarts included, an App approval is opened only for a Core whose approval an earlier submission obtained for the same binding, session and generation and an earlier call confirmed in time |
| `BootstrapRuntimeAnswers.AppsAreRefusedExactlyWithoutOne` | src/bootstrap_runtime.rs:1307-1316 | Once the request is sound and the sweep clean, a Core is refused if and only if memory holds no confirmed approval for it, its binding, session and generation |
| `BootstrapRuntimeAnswers.AppsAreConsumedByTheirCore` | src/bootstrap_runtime.rs:1373-1458 | An App approval is consumed only by the Core, challenge, App CSR and code of the App start that opened it, in time |
| `BootstrapRuntimeAnswers.EntitledConsumes` | src/bootstrap_runtime.rs:1373-1458 | While it is open, such a submission whose workspace closes consumes it |
| `BootstrapRuntimeAnswers.ForeignAppSubmissionIsRefused` | src/bootstrap_runtime.rs:1373-1458 | Another Core, challenge or App CSR is refused and changes nothing |
| `BootstrapRuntimeAnswers.AnsweredOnce` | src/bootstrap_runtime.rs:1047-1458 | No start is certified twice and no App approval consumed twice, over all restarts |
| `BootstrapRuntimeAnswers.RecoveredOnlyByItsCore` | src/bootstrap_runtime.rs:1146-1180 | Material is recovered only under the binding and session of the start it was issued for, unless that lapsed |
| `BootstrapRuntimeAnswers.AuthorizedOnlyForItsCore` | src/bootstrap_runtime.rs:1182-1226 | The first App is authorized only for the Core and App CSR of the approval, with its generation, before it is confirmed or lapses |
| `BootstrapRuntimeAnswers.ConfirmedOnlyByItsCore` | src/bootstrap_runtime.rs:1228-1271 | A confirmation is reported only to the Core, App CSR and generation of the approval, which is confirmed then |
| `BootstrapRuntimeAnswers.ForeignApprovalIsRefused` | src/bootstrap_runtime.rs:1146-1271 | A recovery, authorization or confirmation by anyone else is refused and leaves the approval as it was |
| `BootstrapRuntimeAnswers.AbortsAreFinal` | src/bootstrap_runtime.rs:1012-1045 | After an abort the attempt is gone and its workspace closed or left to the next sweep; only a closed one is reported as done |
| `BootstrapRuntimeReports.ReportsAreWritten` | src/bootstrap_runtime.rs:642-723 | Whatever the process reports as opened, counted, ended or issued is on file when it is reported, and an opening was made in a verified workspace |
| `BootstrapRuntimeReports.StartsAreRefusedAtTheLimits` | src/bootstrap_runtime.rs:939-943 | Once the request is sound and the sweep clean, room is refused exactly at eight attempts or 256 approvals |
| `RelayBootstrapRuntime.BootstrapStateStore.Restore` | src/bootstrap_runtime.rs:726-769 | The restore loop: core approvals and orphans, or refusal of the whole file |
| `RelayBootstrapRuntime.BootstrapRuntimeState.SweepExpired` | src/bootstrap_runtime.rs:1476-1519 | The reap and close loops have the effect of the sweep, stopping at the first close that fails |
| `RelayBootstrapRuntime.BootstrapRuntimeState.ReapState` | src/bootstrap_runtime.rs:1494-1519 | Late attempts and approvals leave the maps, their workspaces are returned in order, their sessions freed |
| `IssuanceRuns.FileStaysValid` | src/issuance.rs:356-706 | From an empty store every transaction of any handle, whatever its clock reads, writes a file that validates, with pairwise distinct authorizations |
| `IssuanceSingleUse.AuthorizationsAreSingleUse` | src/issuance.rs:356-436 | An authorization with one expiry is created at most once, for one CSR, over all handles, prunings and reopenings, in every run whose clocks disagree by at most a given number of seconds, if and only if that number is at most 43,050 |
| `IssuanceRuns.TerminalRecordsAreFixed` | src/issuance.rs:453-627 | No transaction on any file, under any clock reading, changes an issued or rejected record while it is retained |
| `IssuanceRuns.TerminalRecordsStay` | src/issuance.rs:453-714 | Over any run such a record is found unchanged as long as no transaction reads a clock at or past the end of its retention |
| `IssuanceRuns.PruneKeeps` | src/issuance.rs:710-714 | Pruning keeps exactly the records still retained, in order |
| `IssuanceMap.StepRefines` | src/issuance.rs:356-706 | Every transaction, refused, failed or done, is the same transaction on one map by authorization, with the same answer, whatever a record makes of the edit (`IssuanceAnswers` says what) |
| `IssuanceAnswers.EditsSayWhatTheyAnswer` | src/issuance.rs:453-627 | On any file an edit answered with a record says what was asked: an issued or attached record carries exactly the material, a rejected one the code unless it was issued before |
| `IssuanceAnswers.EditsAreAnsweredExactlyWhenTaken` | src/issuance.rs:453-627 | After any run a valid edit of a record in retention is answered with it if and only if the record takes it and the write, if one is needed, succeeds; otherwise with the reason, and the file stays |
| `IssuanceAnswers.FinalResultsAnswerForGood` | src/issuance.rs:516-627 | A result reported as issued or rejected answers every later edit in its retention, whatever ran in between: a repetition with the same record, another material or code with its refusal |
| `IssuanceAnswers.AttachedCandidateAnswers` | src/issuance.rs:453-514 | An attached candidate answers its repetition, and any other candidate is refused |
| `IssuanceAnswers.BeginsAnswerTheirOwn` | src/issuance.rs:356-436 | On any file a begin is answered only with a record of its App, key and generation, for an unexpired authorization of five minutes at most; a new one only when none of the authorization is retained |
| `IssuanceAnswers.ForeignBeginsAreRefused` | src/issuance.rs:390-412 | An authorization retained for another CSR, App or generation is refused, and the file stays |
| `IssuanceAnswers.RecordsComeFromCalls` | src/issuance.rs:356-627 | After any run every record on file was begun by an earlier call and has its material or code, and its retention, from an earlier call for its key |
| `IssuanceMap.StaleHandlesShareOneMap` | src/issuance.rs:356-706 | From the empty store every run of any handles, whatever they had cached, has the effect and the answers of that run on one shared map |
| `IssuanceMap.ReconcileRefines` | src/issuance.rs:637-651 | A reconcile returns what the shared map holds under that key, unless it fails |
| `IssuanceMap.PruneCommutes` | src/issuance.rs:710-714 | Pruning removes from the map exactly the expired keys, and is a change of the file exactly when it is one of the map |
| `IssuanceMap.FinalizationForgetsCandidate` | src/issuance.rs:356-571 | After a run from the empty store that begins an authorization, attaches one candidate and finalizes another material, all reported as done, a reconcile returns the second and never the first |
| `PersistentIssuanceResults.ChainBytes` | src/issuance.rs:717-738 | The chain check: empty, empty certificate, or over the total bound |
| `PersistentIssuanceResults.ValidateRecords` | src/issuance.rs:741-794 | The validation loop accepts exactly the valid files |
| `PersistentIssuanceResults.PruneRecords` | src/issuance.rs:710-714 | The retain loop, and whether anything was removed |
| `Allowlist.EditsGoForward` | src/enrollment.rs:735-810 | An edit loses no entry, changes no certificate, never leaves revocation, and raises the generation by one unless it activates |
| `AllowlistStandings.EditsAreAnsweredByStanding` | src/allowlist.rs:188-261 | After any interleaving of stale handles an edit is answered from the edits reported before: done if and only if nothing speaks against it, otherwise with the reason; an App is activated only by the fingerprint it was enrolled with |
| `AllowlistStandings.AdmittedExactlyByStanding` | src/enrollment.rs:812-824 | A certificate is admitted if and only if a reported App stands active with its fingerprint and has not expired |
| `Allowlist.RevocationIsForever` | src/allowlist.rs:188-261 | Over any interleaving of stale handles a revoked App stays revoked, no entry disappears and the file generation never decreases |
| `Allowlist.StaleHandlesLagOnlyByGeneration` | src/allowlist.rs:257-261 | A handle whose generation is the file's has missed no enrollment and no revocation |
| `Allowlist.RevocationPreservesSiblings` | src/enrollment.rs:790-810 | A revocation changes no sibling's state, fingerprint or expiry |
| `Allowlist.RevokedFingerprintIsDeniedUnlessShared` | src/enrollment.rs:790-824 | Afterwards the certificate is admitted exactly when another active entry shares its fingerprint |
| `Allowlist.SharedFingerprintSurvivesRevocation` | src/enrollment.rs:740-744 | Such sharing is possible: two pending entries with one fingerprint, both activated |
| `PersistentAllowlist.AllowlistRegistry.Revoke` | src/enrollment.rs:790-810 | The loop re-dates every entry and denies only the selected one |
| `RelayEnrollment.ChallengesAreSingleUse` | src/enrollment.rs:1099-1106 | In every run each challenge is answered at most once, whatever the answer |
| `RelayEnrollment.AuthorizationsIssueOnce` | src/enrollment.rs:1099-1139 | No authorization, challenge or App is issued for twice, and serials rise |
| `RelayEnrollment.IssuancesAreJustified` | src/enrollment.rs:1048-1139 | Every issued App answered, within 300 seconds, a challenge begun for exactly its Core, profile, target, App and generation |
| `RelayEnrollment.SubmissionsAreAnswered` | src/enrollment.rs:1092-1125 | After any run each submission is answered from the challenges begun and answered before: unknown, expired, not repeating what was begun, spent, or enrolled unless the certificate or the allowlist refuses |
| `RelayEnrollment.EnrolledExactlyWhenNew` | src/enrollment.rs:1115-1139 | A submission that repeats its challenge enrolls if and only if the App is new, no active entry has the fingerprint and nothing overflows |
| `RelayEnrollment.RevokedAppsNeverReturn` | src/enrollment.rs:1099-1139 | Once revoked, an App is never enrolled again by any later run |
| `RelayEnrollment.FailedEnrollmentSpendsAuthorization` | src/enrollment.rs:1122-1137 | A matching submission spends its authorization even when nothing is issued |
| `RelayEnrollment.CertificateGenerationTrailsEntry` | src/enrollment.rs:1125-1137 | The certificate carries the generation before its enrollment, one below its entry's |
| `WireFrames.DecodeOfEncode` | src/iroh_endpoint.rs:202-244 | In all four formats exactly the frames of at most 65,536 bytes are encoded, and decoding inverts encoding |
| `WireFrames.EncodeOfDecode` | src/quic_wire.rs:159-199 | Accepted bytes re-encode to themselves, in all four formats |
| `WireFrames.FrameDelimitsItself` | src/iroh_endpoint.rs:2402-2466 | A frame read off a stream returns exactly that frame and leaves the rest |
| `WireFrames.ReadingIsExact` | src/iroh_endpoint.rs:2402-2466 | Whatever a read accepts is the encoding of the frame it returns, and nothing more is consumed |
| `WireFrames.StreamsDelimitThemselves` | src/iroh_endpoint.rs:2402-2466 | Repeated reads over any list of frames return exactly that list and leave the rest |
| `WireFrames.FramesArePrefixFree` | src/bootstrap_wire.rs:219-281 | Two streams that start with a frame and agree start with the same frame |
| `WireFrames.EncodeFrame` | src/enrollment_v3_wire.rs:183-194 | The buffer that is filled is the frame, or the size error |
| `SessionWire.DecodeOfEncode` | src/quic_wire.rs:670-730 | Exactly the bindings with a handle are encoded, and each is read back field by field |
| `SessionWire.EncodeOfDecode` | src/quic_wire.rs:693-730 | Every accepted binding re-encodes to itself |
| `SessionWire.BindingDelimitsItself` | src/iroh_endpoint.rs:2511-2532 | A binding read followed by any suffix returns the binding and leaves the suffix |
| `SessionWire.BindingReadingIsExact` | src/iroh_endpoint.rs:2511-2532 | Nothing else is accepted and nothing else consumed |
| `SessionWire.DecodeOfEncodeResponse` | src/quic_wire.rs:857-898 | Every consistent response is read back |
| `SessionWire.OnlyDecisionsTravel` | src/quic_wire.rs:857-898 | A response is encoded, and its buffer decoded, if and only if it accepts with a handle and no reason or rejects without a handle |
| `SessionWire.EncodeOfDecodeResponse` | src/quic_wire.rs:877-898 | Every accepted response re-encodes to itself |
| `SessionWire.FillResponse` | src/quic_wire.rs:857-874 | The fixed buffer, filled in place, is the encoding |
| `SessionPayloads.DecodeOfEncodePayload` | src/quic_wire.rs:318-631 | All four payloads are encoded, except an acknowledgement without a handle, and read back |
| `SessionPayloads.EncodeOfDecodePayload` | src/quic_wire.rs:318-631 | Accepted payloads re-encode to themselves |
| `SessionPayloads.HelloIsReadBackExactlyWhenNonzero` | src/quic_wire.rs:257-289 | The hello acknowledgement is encoded unchecked and read back exactly when no field is zero |
| `SessionPayloads.AcceptedHelloIsCanonical` | src/quic_wire.rs:267-289 | An accepted hello re-encodes to itself |
| `SessionPayloads.EncodeHello` | src/quic_wire.rs:257-264 | The fields appended one by one are the 56-byte encoding |
| `CertificateWire.HexFieldRoundTrip` | src/bootstrap_wire.rs:898-935 | Nonzero digests survive lowercase hex, and only such text is accepted |
| `CertificateWire.WriteHex` | src/bootstrap_wire.rs:898-905 | The digit loop writes the text form |
| `CertificateWire.EncodeChain` | src/bootstrap_wire.rs:954-977 | Accepts exactly the valid chains; the size error exactly when the first fault is the byte bound |
| `CertificateWire.DecodeChain` | src/bootstrap_wire.rs:980-997 | The same bounds and errors, applied to what the texts denote |
| `CertificateWire.ChainRoundTrip` | src/enrollment_v3_wire.rs:914-953 | Decoding inverts encoding on valid chains, and only such texts are accepted |
| `CertificateWire.ArrayBound` | src/bootstrap_wire.rs:954-977 | A chain's text costs at most four thirds of its bytes plus eleven thirds per certificate, for every split |
| `CertificateWire.ChainFramesFit` | src/bootstrap_wire.rs:712-733 | Every accepted chain, with all other fields at full width, fits its HDB1 and HDE3 frames of 65,536 bytes |

## Left out

- The iroh endpoint, QUIC connections, tokio tasks, sockets, timeouts and cancellation: library behaviour; only the state changes between two lock acquisitions are modelled.
- File ownership, mode and symbolic-link checks, temporary-file names, and the directory sync of the bootstrap, issuance and allowlist files: operating-system facts.
- X.509 issuance, the random generator, JSON parsing and the internals of the base64 crate; for the frame bound the serialized length is written out field by field.
- Relay identity records (`load_or_create_relay_identity`): one compare-and-commit on the modelled store.
- Whether an endpoint id is a valid curve point: peers are opaque.
- Herdr request and response bodies, workspace titles and dates; creation, verification and close succeed or fail freely.
- Configuration parsing, redacted debug output, supervision templates, error texts.
- The contract-test facades and the HDB1 and HDE3 stream dispatchers: short exchanges over the modelled core.
- `src/enrollment_wire.rs` and `src/reconciliation_wire.rs`, which repeat the frame codec modelled here, and `src/bridge.rs`.
- The update worker fake and the session registry.
- Constant-time comparison, erasure and secrecy: not functional behaviour.
- A failing clock in the runtime: every operation that cannot read the clock returns before it touches state.
- `find` and `find_by_authorization_id` of the issuance store: the same prune-and-query transaction as `reconcile` with another key.
- `replace` of the shared allowlist: it may undo a revocation by design, so no run of the allowlist theorems contains it.
- `is_whitespace` and `is_control` on App and profile identities are modelled for ASCII bytes only.
- The error names of HDB1 and HDE3 header faults, which the code merges, are those of HDP1 and HDQM in `WireFrames`.
- The 1 MiB bound of a record payload in `encode_pairing_authority`: 64 relations cannot reach it.
- LeaseTheorems.ConnectionGenerationsRise: stated for epochs and per-epoch admissions below 2^32, because without that bound it is false (`LeaseTheorems.GenerationsCollideExactlyModulo`).
- BootstrapVerifierWorkspaces.EveryWorkspaceIsOwnedOrOrphaned: stated for runs whose orphan retries target sessions without a fence, the documented precondition, because without it it is false.
- ChallengeTheorems.ChallengesAreLimited: while the peer's record lives, because without that it is false (`ChallengeTheorems.DropRestartsTheWindow`); a restart forgets the window too.
- BootstrapRuntimeTheorems.StartsAreLimited: within one process, because the limiter's history is not written to the state file.
