/** Revocation, generation and lease guarantees of the pairing authority over whole runs. */
module PairingTheorems {
  import opened Common
  import opened AuthorityStore
  import opened PairingAuthority
  import opened PairingCodecProofs
  import opened PairingProofs

  // ---------------------------------------------------------------- revocation

  predicate PairedInMemory(w: World, p: Peer) {
    w.relay.Some? && p in w.relay.value.pairings && w.relay.value.pairings[p].paired
  }

  ghost predicate Unpaired(w: World, p: Peer) {
    !PairedInMemory(w, p) && !PairsOnDisk(w.authority.record, p)
  }

  predicate Pairs(op: Op, p: Peer) {
    op.Pair? && op.peer == p
  }

  /** A commit that does not pair the peer leaves it unpaired on disk. */
  lemma CommitKeepsUnpaired(c: Relay, file: AuthorityFile, candidate: Pairings, faults: Faults, p: Peer)
    requires Committable(candidate, c.localIdentity, c.nextAttempt) && FileSound(file.record)
    requires c.durable ==> Versioned(c, file.record)
    requires p in candidate ==> !candidate[p].paired
    requires !PairsOnDisk(file.record, p)
    ensures !PairsOnDisk(CommitPairings(c, file, candidate, faults).0.record, p)
  {
    CommitKeepsDisk(c, file, candidate, faults);
  }

  lemma UnpairedSurvivesOthersPairing(w: World, op: Op, p: Peer)
    requires Inv(w) && w.relay.Some? && Unpaired(w, p) && op.Pair? && op.peer != p
    ensures Unpaired(Step(w, op).0, p)
  {
    var r := w.relay.value;
    MarkPairedCases(r, w.authority, op.peer, op.now, op.stamp, op.faults);
    if MayPair(r, op.peer, op.now, op.stamp) {
      PairCandidateSound(r, op.peer, op.now, op.stamp);
      CommitKeepsUnpaired(Counted(r), w.authority, PairCandidate(r, op.peer, op.now, op.stamp.value), op.faults, p);
    }
  }

  lemma UnpairedSurvivesRevocations(w: World, op: Op, p: Peer)
    requires Inv(w) && w.relay.Some? && Unpaired(w, p) && op.Unpair?
    ensures Unpaired(Step(w, op).0, p)
  {
    var r := w.relay.value;
    RevokeCases(r, w.authority, op.peer, op.stamp, op.faults);
    if MayRevoke(r, op.peer, op.stamp) {
      RevokeCandidateSound(r, op.peer, op.stamp);
      CommitKeepsUnpaired(Counted(r), w.authority, RevokeCandidate(r, op.peer, op.stamp.value), op.faults, p);
    }
  }

  /** Operations without a commit pair nobody. */
  lemma QuietStepsPairNobody(w: World, op: Op, p: Peer)
    requires Inv(w) && w.relay.Some? && !op.Pair? && !op.Unpair? && !op.Boot?
    ensures Step(w, op).0.authority == w.authority
    ensures PairedInMemory(Step(w, op).0, p) <==> !op.Crash? && PairedInMemory(w, p)
  {
    if op.Reserve? || op.Fail? {
      ChallengesPairNobody(w, op, p);
    }
  }

  lemma ChallengesPairNobody(w: World, op: Op, p: Peer)
    requires Inv(w) && w.relay.Some? && (op.Reserve? || op.Fail?)
    ensures Step(w, op).0.authority == w.authority
    ensures PairedInMemory(Step(w, op).0, p) <==> PairedInMemory(w, p)
  {
    ObserveShape(w.relay.value, op.peer, op.now, op.stamp);
  }

  lemma UnpairedSurvivesBoot(w: World, op: Op, p: Peer)
    requires Inv(w) && w.relay.None? && Unpaired(w, p) && op.Boot?
    ensures Unpaired(Step(w, op).0, p)
  {
    var epoch := InstallFence(w.fence, op.fenceLoad, op.fenceFaults).1;
    RestoreKeepsInv(w.authority, op.identity, op.bootNow, op.load, op.replaceFaults, op.maxConnections,
                    if epoch.Some? then epoch.value else 0);
  }

  lemma UnpairedSurvivesStep(w: World, op: Op, p: Peer)
    requires Inv(w) && Unpaired(w, p) && !Pairs(op, p)
    ensures Unpaired(Step(w, op).0, p)
  {
    if op.Boot? {
      if w.relay.None? { UnpairedSurvivesBoot(w, op, p); }
    } else if w.relay.Some? {
      if op.Pair? {
        UnpairedSurvivesOthersPairing(w, op, p);
      } else if op.Unpair? {
        UnpairedSurvivesRevocations(w, op, p);
      } else {
        QuietStepsPairNobody(w, op, p);
      }
    }
  }

  lemma {:induction false} UnpairedSurvivesRun(w: World, ops: seq<Op>, p: Peer)
    requires Inv(w) && Unpaired(w, p)
    requires forall i | 0 <= i < |ops| :: !Pairs(ops[i], p)
    ensures Unpaired(Run(w, ops), p)
    decreases |ops|
  {
    if ops != [] {
      StepKeepsInv(w, ops[0]);
      UnpairedSurvivesStep(w, ops[0], p);
      UnpairedSurvivesRun(Step(w, ops[0]).0, ops[1..], p);
    }
  }

  lemma ReportedRevocationUnpairs(w: World, p: Peer, stamp: Option<nat>, faults: Faults)
    requires Inv(w) && w.relay.Some? && w.relay.value.durable
    requires Step(w, Unpair(p, stamp, faults)).1 == Outcome(Ok(true))
    ensures Unpaired(Step(w, Unpair(p, stamp, faults)).0, p)
  {
    var r := w.relay.value;
    RevokeCases(r, w.authority, p, stamp, faults);
    var candidate := RevokeCandidate(r, p, stamp.value);
    RevokeCandidateSound(r, p, stamp);
    CommitEffect(Counted(r), w.authority, candidate, faults);
    DiskPairsExactlyThePaired(candidate, r.localIdentity, r.nextAttempt + 1, r.revision + 1, p);
  }

  /**
   * Once a revocation reports true, the peer stays unpaired in memory and on disk, through every
   * crash, restart, identity replacement and other peers' traffic, until it is paired again.
   */
  lemma RevocationIsDurable(before: seq<Op>, p: Peer, stamp: Option<nat>, faults: Faults, later: seq<Op>)
    requires var w := Run(EMPTY_WORLD, before);
      && w.relay.Some? && w.relay.value.durable
      && Step(w, Unpair(p, stamp, faults)).1 == Outcome(Ok(true))
    requires forall i | 0 <= i < |later| :: !Pairs(later[i], p)
    ensures Unpaired(Run(Step(Run(EMPTY_WORLD, before), Unpair(p, stamp, faults)).0, later), p)
  {
    var w := Run(EMPTY_WORLD, before);
    RunKeepsInv(EMPTY_WORLD, before);
    ReportedRevocationUnpairs(w, p, stamp, faults);
    StepKeepsInv(w, Unpair(p, stamp, faults));
    UnpairedSurvivesRun(Step(w, Unpair(p, stamp, faults)).0, later, p);
  }

  // ---------------------------------------------------------------- what a reported false means

  /** Memory and disk name the same paired peers. */
  ghost predicate InSync(w: World) {
    w.relay.Some? && w.relay.value.durable ==>
      forall p :: PairedInMemory(w, p) <==> PairsOnDisk(w.authority.record, p)
  }

  /** A restored process pairs exactly the peers its file pairs. */
  lemma RestoredPairsTheDisk(file: AuthorityFile, identity: nat, now: nat, load: Fault, faults: Faults, p: Peer)
    requires FileSound(file.record) && Restore(file, identity, now, load, faults).1.Ok?
    ensures var (after, restored) := Restore(file, identity, now, load, faults);
      p in restored.value.pairings && restored.value.pairings[p].paired <==> PairsOnDisk(after.record, p)
  {
    if file.record.Some? && file.record.value.payload != [] {
      var record := file.record.value;
      if SameIdentity(record.payload, identity) {
        PairingsOfLookup(record.payload, now);
        MaxAttemptBounds(record.payload, U64_MAX);
      } else {
        CommitInstallsSuccessorOrNothing(file, record.generation + 1, [], record.revision, faults);
      }
    }
  }

  lemma RestartPairsExactlyTheDisk(w: World, op: Op)
    requires Inv(w) && w.relay.None? && op.Boot?
    ensures InSync(Step(w, op).0)
  {
    var n := Step(w, op).0;
    if n.relay.Some? && op.durable {
      forall p ensures PairedInMemory(n, p) <==> PairsOnDisk(n.authority.record, p) {
        RestoredPairsTheDisk(w.authority, op.identity, op.bootNow, op.load, op.replaceFaults, p);
      }
    }
  }

  predicate Failed(answer: Answer) {
    answer.Outcome? && answer.result.Err?
  }

  const WRITE_FAILS := Faults(WriteFails, false)
  const NO_FAULTS := Faults(NoFault, false)

  /** A durable start with which nothing is wrong. */
  function PlainBoot(identity: nat, maxConnections: nat, now: nat): Op {
    Boot(true, identity, maxConnections, now, NoFault, NO_FAULTS, NoFault, NO_FAULTS)
  }

  /** What it starts on a host without any file. */
  function Started(identity: nat, maxConnections: nat): World {
    World(FileState(None, false), FileState(Some(StoredRecord(1, 1, 1)), false),
          Some(StartRelay(true, maxConnections, identity, 1, Restored(map[], 0, 1, 0))), [])
  }

  lemma FirstBoot(identity: nat, maxConnections: nat, now: nat)
    requires identity != 0
    ensures Step(EMPTY_WORLD, PlainBoot(identity, maxConnections, now)).0 == Started(identity, maxConnections)
    ensures Inv(Started(identity, maxConnections))
  {
    StepKeepsInv(EMPTY_WORLD, PlainBoot(identity, maxConnections, now));
  }

  lemma RunTakes(w: World, op: Op, rest: seq<Op>)
    ensures Run(w, [op] + rest) == Run(Step(w, op).0, rest)
  {
    assert ([op] + rest)[1..] == rest;
  }

  lemma TwoSteps(w: World, first: Op, second: Op)
    ensures Run(w, [first, second]) == Step(Step(w, first).0, second).0
  {
    RunTakes(w, first, [second] + []);
    RunTakes(Step(w, first).0, second, []);
    assert [first, second] == [first] + ([second] + []);
  }

  /** A paired peer with a lease, the only peer there is, after three operations from nothing. */
  predicate PairedAlone(w: World, identity: nat, p: Peer, lease: Lease) {
    && PairedInMemory(w, p) && w.relay.value.durable && w.relay.value.localIdentity == identity
    && p in w.relay.value.active && lease == Lease(p, w.relay.value.active[p]) && lease in w.relay.value.leases
    && !w.authority.locked && w.fence == FileState(Some(StoredRecord(1, 1, 1)), false)
    && w.authority.record.Some? && SameIdentity(w.authority.record.value.payload, identity)
  }

  lemma FirstConnection(identity: nat, maxConnections: nat, p: Peer)
    requires identity != 0 && maxConnections > 0
    ensures var (n, answer) := Step(Started(identity, maxConnections), Connect(p));
      var r := Started(identity, maxConnections).relay.value;
      && answer == Admitted(Some(Lease(p, TWO_POW_32 + 1)))
      && n == Started(identity, maxConnections).(tickets := n.tickets, relay :=
                Some(r.(active := map[p := TWO_POW_32 + 1], leases := {Lease(p, TWO_POW_32 + 1)}, nextGeneration := 2)))
  {
  }

  lemma PairingConnected(w: World, identity: nat, p: Peer, now: nat, stamp: nat)
    requires Inv(w) && w.relay.Some? && !w.authority.locked && w.fence == FileState(Some(StoredRecord(1, 1, 1)), false)
    requires var r := w.relay.value;
      && r.durable && r.localIdentity == identity && p !in r.pairings && MayPair(r, p, now, Some(stamp))
      && RevisionOf(w.authority.record) == r.revision < U64_MAX
      && p in r.active && Lease(p, r.active[p]) in r.leases
    ensures PairedAlone(Step(w, Pair(p, now, Some(stamp), NO_FAULTS)).0, identity, p, Lease(p, w.relay.value.active[p]))
  {
    NewPairingSucceeds(w.relay.value, w.authority, p, now, stamp);
  }

  lemma FirstPairing(identity: nat, maxConnections: nat, p: Peer, now: nat, stamp: nat)
    requires identity != 0 && maxConnections > 0
    ensures var ops := [PlainBoot(identity, maxConnections, now), Connect(p), Pair(p, now, Some(stamp), NO_FAULTS)];
      PairedAlone(Run(EMPTY_WORLD, ops), identity, p, Lease(p, TWO_POW_32 + 1))
  {
    var boot, connect, pair := PlainBoot(identity, maxConnections, now), Connect(p), Pair(p, now, Some(stamp), NO_FAULTS);
    var started := Started(identity, maxConnections);
    FirstBoot(identity, maxConnections, now);
    RunTakes(EMPTY_WORLD, boot, [connect, pair]);
    assert [boot] + [connect, pair] == [boot, connect, pair];
    TwoSteps(started, connect, pair);
    StepKeepsInv(started, connect);
    FirstConnection(identity, maxConnections, p);
    PairingConnected(Step(started, connect).0, identity, p, now, stamp);
  }

  /** A peer without a record is paired one generation above the aggregate, so the commit is never refused. */
  lemma NewPeerIsAboveAggregate(r: Relay, p: Peer, now: nat, stamp: Option<nat>)
    requires RelaySound(r) && p !in r.pairings && MayPair(r, p, now, stamp)
    ensures MaxGeneration(RelationsOf(PairCandidate(r, p, now, stamp.value))) > r.aggregate
  {
    PairCandidateSound(r, p, now, stamp);
    ListedGenerationsBounded(PairCandidate(r, p, now, stamp.value), p);
  }

  lemma NewPairingSucceeds(r: Relay, file: AuthorityFile, p: Peer, now: nat, stamp: nat)
    requires RelaySound(r) && r.durable && !file.locked && p !in r.pairings && MayPair(r, p, now, Some(stamp))
    requires RevisionOf(file.record) == r.revision < U64_MAX
    ensures var (after, disk, result) := MarkPaired(r, file, p, now, Some(stamp), NO_FAULTS);
      && result == Ok(true) && p in after.pairings && after.pairings[p].paired
      && after == r.(pairings := after.pairings, revision := after.revision, aggregate := after.aggregate, nextAttempt := after.nextAttempt)
      && !disk.locked && disk.record.Some? && SameIdentity(disk.record.value.payload, r.localIdentity)
  {
    var candidate := PairCandidate(r, p, now, stamp);
    MarkPairedCases(r, file, p, now, Some(stamp), NO_FAULTS);
    PairCandidateSound(r, p, now, Some(stamp));
    NewPeerIsAboveAggregate(r, p, now, Some(stamp));
    EncodeSucceeds(candidate, r.localIdentity, r.nextAttempt + 1);
    RecordForIsSound(candidate, r.localIdentity, r.nextAttempt + 1, r.revision + 1);
  }

  /** What follows the failed revocation: its answer, the false one after the drop, and the restart. */
  lemma FailureThenDrop(w: World, p: Peer, lease: Lease, stamp: Option<nat>, retry: Faults, boot: Op)
    requires Inv(w) && PairedInMemory(w, p) && w.relay.value.durable && !w.authority.locked
    requires p in w.relay.value.active && lease == Lease(p, w.relay.value.active[p]) && lease in w.relay.value.leases
    requires boot.Boot? && boot.durable && boot.load == NoFault && boot.identity == w.relay.value.localIdentity
    requires InstallFence(w.fence, boot.fenceLoad, boot.fenceFaults).1.Some?
    requires w.authority.record.Some? && SameIdentity(w.authority.record.value.payload, boot.identity)
    ensures var failed := Step(w, Unpair(p, stamp, WRITE_FAILS));
      var dropped := Step(failed.0, Disconnect(lease)).0;
      var again := Step(dropped, Unpair(p, stamp, retry));
      && Failed(failed.1)
      && again.1 == Outcome(Ok(false))
      && PairsOnDisk(again.0.authority.record, p)
      && PairedInMemory(Step(Step(again.0, Crash).0, boot).0, p)
  {
    var r := w.relay.value;
    var failed := Step(w, Unpair(p, stamp, WRITE_FAILS)).0;
    RefusedWriteOnlyDistrusts(r, w.authority, p, stamp);
    var dropped := Step(failed, Disconnect(lease)).0;
    DropForgetsTheDistrusted(failed.relay.value, p);
    var again := Step(dropped, Unpair(p, stamp, retry)).0;
    assert again == dropped;
    RestartPairsAgain(Step(again, Crash).0, p, boot);
  }

  /**
   * A failed revocation followed by the drop of the peer's lease erases the only trace of it: in a run
   * from nothing the next revocation reports false although the disk still pairs the peer, and a
   * restart pairs it.
   */
  lemma FalseAfterFailureForgets(identity: nat, maxConnections: nat, p: Peer, now: nat, stamp: nat, retry: Faults)
    requires identity != 0 && maxConnections > 0
    ensures var boot, unpair := PlainBoot(identity, maxConnections, now), Unpair(p, Some(stamp), WRITE_FAILS);
      var paired := Run(EMPTY_WORLD, [boot, Connect(p), Pair(p, now, Some(stamp), NO_FAULTS)]);
      var dropped := Run(paired, [unpair, Disconnect(Lease(p, TWO_POW_32 + 1))]);
      var again := Step(dropped, Unpair(p, Some(stamp), retry));
      && Failed(Step(paired, unpair).1)
      && again.1 == Outcome(Ok(false))
      && PairsOnDisk(again.0.authority.record, p)
      && PairedInMemory(Run(again.0, [Crash, boot]), p)
  {
    var boot, unpair, lease := PlainBoot(identity, maxConnections, now), Unpair(p, Some(stamp), WRITE_FAILS), Lease(p, TWO_POW_32 + 1);
    var ops := [boot, Connect(p), Pair(p, now, Some(stamp), NO_FAULTS)];
    var paired := Run(EMPTY_WORLD, ops);
    FirstPairing(identity, maxConnections, p, now, stamp);
    RunKeepsInv(EMPTY_WORLD, ops);
    FailureThenDrop(paired, p, lease, Some(stamp), retry, boot);
    TwoSteps(paired, unpair, Disconnect(lease));
    TwoSteps(Step(Run(paired, [unpair, Disconnect(lease)]), Unpair(p, Some(stamp), retry)).0, Crash, boot);
  }

  lemma RefusedWriteOnlyDistrusts(r: Relay, file: AuthorityFile, p: Peer, stamp: Option<nat>)
    requires RelaySound(r) && p in r.pairings && r.pairings[p].paired && r.durable && !file.locked
    ensures var (after, disk, result) := Revoke(r, file, p, stamp, WRITE_FAILS);
      && disk == file && result.Err?
      && (after == Distrust(r, p) || after == Distrust(Counted(r), p))
  {
    RevokeCases(r, file, p, stamp, WRITE_FAILS);
    if MayRevoke(r, p, stamp) {
      RevokeCandidateSound(r, p, stamp);
      RefusedWriteChangesNothing(Counted(r), file, RevokeCandidate(r, p, stamp.value));
    }
  }

  lemma RefusedWriteChangesNothing(c: Relay, file: AuthorityFile, candidate: Pairings)
    requires Committable(candidate, c.localIdentity, c.nextAttempt) && c.durable && !file.locked
    ensures var (after, result) := CommitPairings(c, file, candidate, WRITE_FAILS);
      after == file && result.Err?
  {
    EncodeSucceeds(candidate, c.localIdentity, c.nextAttempt);
  }

  lemma DropForgetsTheDistrusted(r: Relay, p: Peer)
    requires p in r.pairings && !Listed(r.pairings[p])
    requires p in r.active && Lease(p, r.active[p]) in r.leases
    ensures p !in DropLease(r, Lease(p, r.active[p])).pairings
  {
  }

  lemma RestartPairsAgain(w: World, p: Peer, boot: Op)
    requires w.relay.None? && !w.authority.locked && FileSound(w.authority.record) && PairsOnDisk(w.authority.record, p)
    requires boot.Boot? && boot.durable && boot.load == NoFault && boot.identity != 0
    requires InstallFence(w.fence, boot.fenceLoad, boot.fenceFaults).1.Some?
    requires SameIdentity(w.authority.record.value.payload, boot.identity)
    ensures PairedInMemory(Step(w, boot).0, p)
  {
    RestoreSound(w.authority, boot.identity, boot.bootNow, boot.replaceFaults);
    RestoredPairsTheDisk(w.authority, boot.identity, boot.bootNow, NoFault, boot.replaceFaults, p);
  }

  // ---------------------------------------------------------------- what pairings and revocations answer

  /** Whom the call leaves as they were. */
  predicate SameElsewhere(w: World, n: World, p: Peer) {
    forall q | q != p && w.relay.Some? && q in w.relay.value.pairings ::
      n.relay.Some? && q in n.relay.value.pairings && n.relay.value.pairings[q] == w.relay.value.pairings[q]
  }

  /**
   * After any run a pairing that reports true leaves the peer paired, in memory and, in a durable process,
   * on disk; it reports false exactly when the registry is full without the peer; an error pairs nobody.
   * A new pairing takes the next generation and a fresh attempt identifier.
   */
  lemma PairingsAnswerTruly(ops: seq<Op>, pair: Op)
    requires pair.Pair? && Run(EMPTY_WORLD, ops).relay.Some?
    ensures var w := Run(EMPTY_WORLD, ops);
      var (n, answer) := Step(w, pair);
      var r := w.relay.value;
      && (answer == Outcome(Ok(true)) ==> PairedInMemory(n, pair.peer) && (r.durable ==> PairsOnDisk(n.authority.record, pair.peer)))
      && (answer == Outcome(Ok(false)) <==> pair.peer !in r.pairings && |r.pairings| >= r.MaxPairingRecords())
      && (Failed(answer) ==> n.relay.value.pairings == r.pairings)
      && (answer == Outcome(Ok(true)) && !PairedInMemory(w, pair.peer) ==>
            var known := pair.peer in r.pairings && r.pairings[pair.peer].generation != 0;
            n.relay.value.pairings[pair.peer].generation == (if known then r.pairings[pair.peer].generation else r.aggregate) + 1
            && r.nextAttempt == n.relay.value.pairings[pair.peer].lastAttempt < n.relay.value.nextAttempt)
      && SameElsewhere(w, n, pair.peer)
  {
    RunKeepsInv(EMPTY_WORLD, ops);
    var w := Run(EMPTY_WORLD, ops);
    MarkPairedCases(w.relay.value, w.authority, pair.peer, pair.now, pair.stamp, pair.faults);
    RunKeepsInv(w, [pair]);
    RunTakes(w, pair, []);
    assert [pair] + [] == [pair];
  }

  /**
   * A revocation reports whether memory paired the peer; whatever it answers, the peer is not paired in
   * memory afterwards, and no other peer is touched. A revoked pairing takes the next generation and a
   * fresh attempt identifier.
   */
  lemma RevocationsAnswerTruly(ops: seq<Op>, unpair: Op)
    requires unpair.Unpair? && Run(EMPTY_WORLD, ops).relay.Some?
    ensures var w := Run(EMPTY_WORLD, ops);
      var (n, answer) := Step(w, unpair);
      && (!Failed(answer) ==> answer == Outcome(Ok(PairedInMemory(w, unpair.peer))))
      && !PairedInMemory(n, unpair.peer) && SameElsewhere(w, n, unpair.peer)
      && (answer == Outcome(Ok(true)) ==>
            var r, after := w.relay.value, n.relay.value;
            && unpair.peer in r.pairings && unpair.peer in after.pairings && after.pairings[unpair.peer].revoked
            && after.pairings[unpair.peer].generation == r.pairings[unpair.peer].generation + 1
            && r.nextAttempt == after.pairings[unpair.peer].lastAttempt < after.nextAttempt)
  {
    RunKeepsInv(EMPTY_WORLD, ops);
    var w := Run(EMPTY_WORLD, ops);
    RevokeCases(w.relay.value, w.authority, unpair.peer, unpair.stamp, unpair.faults);
  }

  // ---------------------------------------------------------------- the generation guard

  /** The aggregate is reached by some relation that the next commit will write. */
  ghost predicate Rooted(r: Relay) {
    r.aggregate == 0 || exists p :: p in ListedPeers(r.pairings) && r.pairings[p].generation >= r.aggregate
  }

  ghost predicate Steady(w: World, identity: nat) {
    && (w.authority.record.Some? ==>
          w.authority.record.value.payload != [] && SameIdentity(w.authority.record.value.payload, identity))
    && (w.relay.Some? ==> w.relay.value.localIdentity == identity && Rooted(w.relay.value))
  }

  lemma RootedCandidatePasses(r: Relay, candidate: Pairings)
    requires Rooted(r) && (forall p | p in ListedPeers(r.pairings) :: p in ListedPeers(candidate) && candidate[p].generation >= r.pairings[p].generation)
    ensures MaxGeneration(RelationsOf(candidate)) >= r.aggregate
  {
    if r.aggregate != 0 {
      var p :| p in ListedPeers(r.pairings) && r.pairings[p].generation >= r.aggregate;
      ListedGenerationsBounded(candidate, p);
    }
  }

  lemma CommittedIsRooted(c: Relay, candidate: Pairings, revision: nat)
    requires ListedPeers(candidate) != {}
    ensures Rooted(Adopted(c, candidate, Committed(revision, MaxGeneration(RelationsOf(candidate)))))
  {
    var relations := RelationsOf(candidate);
    RelationsOfLookup(candidate);
    MaxGenerationBounds(relations);
    var i :| 0 <= i < |relations| && relations[i].generation == MaxGeneration(relations);
    assert candidate[relations[i].peer].generation == MaxGeneration(relations);
  }

  /** One steady commit: never refused as a regression, and steady afterwards. */
  lemma SteadyCommit(c: Relay, file: AuthorityFile, candidate: Pairings, faults: Faults)
    requires Committable(candidate, c.localIdentity, c.nextAttempt)
    requires Rooted(c) && (forall p | p in ListedPeers(c.pairings) :: p in ListedPeers(candidate) && candidate[p].generation >= c.pairings[p].generation)
    ensures var (after, result) := CommitPairings(c, file, candidate, faults);
      && result != Err(Corrupt)
      && (result.Ok? ==> Rooted(Adopted(c, candidate, result.value)))
      && (after.record != file.record ==> after.record.Some? && after.record.value.payload != [] && SameIdentity(after.record.value.payload, c.localIdentity))
  {
    RootedCandidatePasses(c, candidate);
    CommitEffect(c, file, candidate, faults);
    EncodeSucceeds(candidate, c.localIdentity, c.nextAttempt);
    RecordForIsSound(candidate, c.localIdentity, c.nextAttempt, c.revision + 1);
    CommittedIsRooted(c, candidate, CommitRevision(c, file, candidate, faults));
  }

  ghost function CommitRevision(c: Relay, file: AuthorityFile, candidate: Pairings, faults: Faults): nat {
    var result := CommitPairings(c, file, candidate, faults).1;
    if result.Ok? then result.value.revision else 0
  }

  lemma SteadyPair(w: World, op: Op, identity: nat)
    requires Inv(w) && Steady(w, identity) && w.relay.Some? && op.Pair?
    ensures Steady(Step(w, op).0, identity) && Step(w, op).1.result != Err(Corrupt)
  {
    var r := w.relay.value;
    MarkPairedCases(r, w.authority, op.peer, op.now, op.stamp, op.faults);
    if MayPair(r, op.peer, op.now, op.stamp) {
      PairCandidateSound(r, op.peer, op.now, op.stamp);
      SteadyCommit(Counted(r), w.authority, PairCandidate(r, op.peer, op.now, op.stamp.value), op.faults);
    }
  }

  lemma SteadyRevoke(w: World, op: Op, identity: nat)
    requires Inv(w) && Steady(w, identity) && w.relay.Some? && op.Unpair?
    ensures Step(w, op).1.result != Err(Corrupt)
    ensures !Failed(Step(w, op).1) ==> Steady(Step(w, op).0, identity)
  {
    var r := w.relay.value;
    RevokeCases(r, w.authority, op.peer, op.stamp, op.faults);
    if MayRevoke(r, op.peer, op.stamp) {
      RevokeCandidateSound(r, op.peer, op.stamp);
      SteadyCommit(Counted(r), w.authority, RevokeCandidate(r, op.peer, op.stamp.value), op.faults);
    }
  }

  /** Quiet operations never drop a listed relation nor lower its generation. */
  lemma SteadyQuiet(w: World, op: Op, identity: nat)
    requires Inv(w) && Steady(w, identity) && w.relay.Some? && !op.Pair? && !op.Unpair? && !op.Boot?
    ensures Steady(Step(w, op).0, identity)
  {
    var r := w.relay.value;
    if op.Reserve? {
      ReserveKeepsRooted(r, op.peer, op.now, op.stamp);
    } else if op.Fail? {
      FailureKeepsRooted(r, op.peer, op.now, op.stamp);
    } else if op.Disconnect? {
      RootedTransfers(r, DropLease(r, op.lease));
    } else if op.Connect? {
      RootedTransfers(r, Admit(r, op.peer).0);
    }
  }

  lemma RootedTransfers(r: Relay, after: Relay)
    requires Rooted(r) && after.aggregate == r.aggregate
    requires forall p | p in ListedPeers(r.pairings) ::
               p in after.pairings && Listed(after.pairings[p]) && after.pairings[p].generation == r.pairings[p].generation
    ensures Rooted(after)
  {
    if r.aggregate != 0 {
      var p :| p in ListedPeers(r.pairings) && r.pairings[p].generation >= r.aggregate;
      assert p in ListedPeers(after.pairings);
    }
  }

  lemma ReserveKeepsRooted(r: Relay, peer: Peer, now: nat, stamp: Option<nat>)
    requires RelaySound(r) && Rooted(r)
    ensures Rooted(ReserveChallenge(r, peer, now, stamp).0)
    ensures ReserveChallenge(r, peer, now, stamp).0.localIdentity == r.localIdentity
  {
    var (observed, known) := Observe(r, peer, now, stamp);
    ObserveFrame(r, peer, now, stamp);
    ObserveShape(r, peer, now, stamp);
    RootedTransfers(r, observed);
    if known && !observed.pairings[peer].paired {
      var next := TakeChallenge(observed.pairings[peer], now).0;
      RootedTransfers(observed, observed.(pairings := observed.pairings[peer := next]));
    }
  }

  lemma FailureKeepsRooted(r: Relay, peer: Peer, now: nat, stamp: Option<nat>)
    requires RelaySound(r) && Rooted(r)
    ensures Rooted(RecordFailure(r, peer, now, stamp).0)
    ensures RecordFailure(r, peer, now, stamp).0.localIdentity == r.localIdentity
  {
    var observed := Observe(r, peer, now, stamp).0;
    ObserveFrame(r, peer, now, stamp);
    ObserveShape(r, peer, now, stamp);
    RootedTransfers(r, observed);
    RootedTransfers(observed, RecordFailure(r, peer, now, stamp).0);
  }

  lemma SteadyBoot(w: World, op: Op, identity: nat)
    requires Inv(w) && Steady(w, identity) && w.relay.None? && op.Boot? && op.identity == identity
    ensures Steady(Step(w, op).0, identity)
  {
    if op.durable && w.authority.record.Some? && identity != 0 {
      var record := w.authority.record.value;
      var (file, restored) := Restore(w.authority, identity, op.bootNow, op.load, op.replaceFaults);
      if LoadFile(w.authority, op.load).Ok? {
        RestoreOwnKeepsInv(w.authority, identity, op.bootNow, op.replaceFaults, op.maxConnections, 0);
        RestoredIsRooted(record, identity, op.bootNow);
      }
    }
  }

  lemma RestoredIsRooted(record: StoredRecord<seq<Relation>>, identity: nat, now: nat)
    requires RecordSound(record) && record.payload != []
    ensures exists p :: p in ListedPeers(PairingsOf(record.payload, now)) && PairingsOf(record.payload, now)[p].generation >= record.generation
  {
    PairingsOfLookup(record.payload, now);
    MaxGenerationBounds(record.payload);
    var i :| 0 <= i < |record.payload| && record.payload[i].generation == MaxGeneration(record.payload);
    assert record.payload[i].peer in ListedPeers(PairingsOf(record.payload, now));
  }

  /** No restart under another identity, and no revocation that failed. */
  ghost predicate Uneventful(w: World, ops: seq<Op>, identity: nat)
    decreases |ops|
  {
    ops == [] ||
    (&& (ops[0].Boot? ==> ops[0].identity == identity)
     && (ops[0].Unpair? ==> !Failed(Step(w, ops[0]).1))
     && Uneventful(Step(w, ops[0]).0, ops[1..], identity))
  }

  lemma {:induction false} SteadyRun(w: World, ops: seq<Op>, identity: nat)
    requires Inv(w) && Steady(w, identity) && Uneventful(w, ops, identity)
    ensures Steady(Run(w, ops), identity)
    decreases |ops|
  {
    if ops != [] {
      var op := ops[0];
      StepKeepsInv(w, op);
      if op.Boot? {
        if w.relay.None? { SteadyBoot(w, op, identity); }
      } else if w.relay.Some? {
        if op.Pair? { SteadyPair(w, op, identity); }
        else if op.Unpair? { SteadyRevoke(w, op, identity); }
        else { SteadyQuiet(w, op, identity); }
      }
      SteadyRun(Step(w, op).0, ops[1..], identity);
    }
  }

  /** With one identity and no failed revocation, no commit is ever refused as a generation regression. */
  lemma RegressionUnreachable(ops: seq<Op>, identity: nat, last: Op)
    requires Uneventful(EMPTY_WORLD, ops, identity)
    ensures Step(Run(EMPTY_WORLD, ops), last).1 != Outcome(Err(Corrupt))
  {
    var w := Run(EMPTY_WORLD, ops);
    RunKeepsInv(EMPTY_WORLD, ops);
    SteadyRun(EMPTY_WORLD, ops, identity);
    if w.relay.Some? {
      if last.Pair? { SteadyPair(w, last, identity); }
      else if last.Unpair? { SteadyRevoke(w, last, identity); }
    }
  }

  /** Exactly when pairing is refused: every relation of the candidate lies below the aggregate. */
  lemma PairingRefusedExactlyBelowAggregate(r: Relay, file: AuthorityFile, peer: Peer, now: nat, stamp: Option<nat>, faults: Faults)
    requires RelaySound(r) && MayPair(r, peer, now, stamp)
    ensures MarkPaired(r, file, peer, now, stamp, faults).2 == Err(Corrupt) <==>
      && BaseGeneration(r, RecordToPair(r, peer, now)) + 1 < r.aggregate
      && forall p | p in ListedPeers(r.pairings) && p != peer :: r.pairings[p].generation < r.aggregate
  {
    var candidate := PairCandidate(r, peer, now, stamp.value);
    MarkPairedCases(r, file, peer, now, stamp, faults);
    PairCandidateSound(r, peer, now, stamp);
    CommitEffect(Counted(r), file, candidate, faults);
    EncodedBelow(candidate, r.aggregate);
    CandidateBelow(r, peer, now, stamp.value);
  }

  lemma CandidateBelow(r: Relay, peer: Peer, now: nat, stamp: nat)
    ensures var candidate := PairCandidate(r, peer, now, stamp);
      (forall p | p in ListedPeers(candidate) :: candidate[p].generation < r.aggregate) <==>
        && BaseGeneration(r, RecordToPair(r, peer, now)) + 1 < r.aggregate
        && forall p | p in ListedPeers(r.pairings) && p != peer :: r.pairings[p].generation < r.aggregate
  {
    var candidate := PairCandidate(r, peer, now, stamp);
    assert peer in ListedPeers(candidate);
    assert forall p | p != peer :: p in ListedPeers(candidate) <==> p in ListedPeers(r.pairings);
  }

  lemma EncodedBelow(candidate: Pairings, bound: nat)
    requires ListedPeers(candidate) != {}
    ensures MaxGeneration(RelationsOf(candidate)) < bound <==> forall p | p in ListedPeers(candidate) :: candidate[p].generation < bound
  {
    var relations := RelationsOf(candidate);
    forall p | p in ListedPeers(candidate) ensures candidate[p].generation <= MaxGeneration(relations) {
      ListedGenerationsBounded(candidate, p);
    }
    RelationsOfLookup(candidate);
    MaxGenerationBounds(relations);
    var i :| 0 <= i < |relations| && relations[i].generation == MaxGeneration(relations);
    assert relations[i].generation == candidate[relations[i].peer].generation;
  }

  /**
   * After an identity replacement the protocol's own order, challenge first and pairing second, pairs
   * a peer exactly when the replaced record's aggregate generation was 1.
   */
  lemma ChallengeThenPairAfterReplacement(w: World, boot: Op, p: Peer, now: nat, stamp: nat)
    requires Inv(w) && w.relay.None? && !w.authority.locked && w.authority.record.Some? && w.authority.record.value.payload != []
    requires boot.Boot? && boot.durable && boot.load == NoFault && boot.replaceFaults == NO_FAULTS && boot.maxConnections > 0
    requires boot.identity != 0 && !SameIdentity(w.authority.record.value.payload, boot.identity)
    requires w.authority.record.value.generation < U64_MAX && w.authority.record.value.revision < U64_MAX - 1
    requires InstallFence(w.fence, boot.fenceLoad, boot.fenceFaults).1.Some?
    ensures var started := Step(w, boot).0;
      var reserved := Step(started, Reserve(p, now, Some(stamp)));
      && reserved.1 == Flag(true)
      && Step(reserved.0, Pair(p, now, Some(stamp), NO_FAULTS)).1
         == Outcome(if w.authority.record.value.generation == 1 then Ok(true) else Err(Corrupt))
  {
    var record := w.authority.record.value;
    StepKeepsInv(w, boot);
    var started := Step(w, boot).0;
    var r := started.relay.value;
    assert r.pairings == map[] && r.aggregate == record.generation + 1 && r.nextAttempt == 1;
    assert started.authority == FileState(Some(StoredRecord(record.revision + 1, record.generation + 1, [])), false);
    var reserved := Step(started, Reserve(p, now, Some(stamp))).0;
    StepKeepsInv(started, Reserve(p, now, Some(stamp)));
    PairAfterChallenge(reserved.relay.value, reserved.authority, p, now, stamp);
  }

  lemma PairAfterChallenge(r: Relay, file: AuthorityFile, p: Peer, now: nat, stamp: nat)
    requires RelaySound(r) && r.durable && r.nextAttempt < U64_MAX
    requires r.pairings.Keys == {p} && !Listed(r.pairings[p]) && r.pairings[p].generation == 1
    requires !file.locked && RevisionOf(file.record) == r.revision < U64_MAX
    ensures MarkPaired(r, file, p, now, Some(stamp), NO_FAULTS).2 == if r.aggregate <= 2 then Ok(true) else Err(Corrupt)
  {
    var candidate := PairCandidate(r, p, now, stamp);
    PairingRefusedExactlyBelowAggregate(r, file, p, now, Some(stamp), NO_FAULTS);
    MarkPairedCases(r, file, p, now, Some(stamp), NO_FAULTS);
    PairCandidateSound(r, p, now, Some(stamp));
    EncodeSucceeds(candidate, r.localIdentity, r.nextAttempt + 1);
  }
}
