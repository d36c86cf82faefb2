/** Exactly when a revocation that answers `Ok(false)` has made the peer durably unpaired. */
module RevocationTheorems {
  import opened Common
  import opened AuthorityStore
  import opened PairingAuthority
  import opened PairingCodecProofs
  import opened PairingProofs
  import opened PairingTheorems

  /**
   * Whether the disk may pair the peer behind the process's back: a failed pairing of the peer that was
   * installed anyway, or a failed revocation of the paired peer that was not, hides the pairing; the next
   * installed record of any other kind reveals it. Calls and answers tell this, except that an `Unknown`
   * answer does not tell whether the record was installed: then one has to look at the file.
   */
  ghost function Hides(w: World, op: Op, p: Peer, hidden: bool): bool {
    if w.relay.None? || op.Crash? then false
    else
      var (n, answer) := Step(w, op);
      if n.authority.record != w.authority.record then Pairs(op, p) && Failed(answer)
      else hidden || (op.Unpair? && op.peer == p && Failed(answer) && PairedInMemory(w, p))
  }

  ghost function Hidden(w: World, ops: seq<Op>, p: Peer, hidden: bool): bool
    decreases |ops|
  {
    if ops == [] then hidden else Hidden(Step(w, ops[0]).0, ops[1..], p, Hides(w, ops[0], p, hidden))
  }

  /** The disk pairs exactly the peers that memory pairs or that are hidden. */
  ghost predicate Explained(w: World, p: Peer, hidden: bool) {
    && (w.relay.None? ==> !hidden)
    && (w.relay.Some? && w.relay.value.durable ==>
          (PairsOnDisk(w.authority.record, p) <==> PairedInMemory(w, p) || hidden))
  }

  lemma BootExplains(w: World, op: Op, p: Peer)
    requires Inv(w) && w.relay.None? && op.Boot?
    ensures Explained(Step(w, op).0, p, false)
  {
    RestartPairsExactlyTheDisk(w, op);
    assert InSync(Step(w, op).0);
  }

  /** What a commit of a durable process does to the disk, against its answer. */
  lemma CommitOutcome(c: Relay, file: AuthorityFile, candidate: Pairings, faults: Faults, p: Peer)
    requires Committable(candidate, c.localIdentity, c.nextAttempt) && FileSound(file.record)
    requires c.durable && Versioned(c, file.record)
    ensures var (after, result) := CommitPairings(c, file, candidate, faults);
      && (result.Ok? ==> after.record != file.record)
      && (after.record != file.record ==> (PairsOnDisk(after.record, p) <==> p in candidate && candidate[p].paired))
  {
    CommitEffect(c, file, candidate, faults);
    CommitKeepsDisk(c, file, candidate, faults);
  }

  lemma PairExplains(w: World, op: Op, p: Peer, hidden: bool)
    requires Inv(w) && w.relay.Some? && w.relay.value.durable && op.Pair? && Explained(w, p, hidden)
    ensures Explained(Step(w, op).0, p, Hides(w, op, p, hidden))
  {
    var r := w.relay.value;
    MarkPairedCases(r, w.authority, op.peer, op.now, op.stamp, op.faults);
    if MayPair(r, op.peer, op.now, op.stamp) {
      PairCandidateSound(r, op.peer, op.now, op.stamp);
      CommitOutcome(Counted(r), w.authority, PairCandidate(r, op.peer, op.now, op.stamp.value), op.faults, p);
    }
  }

  lemma UnpairExplains(w: World, op: Op, p: Peer, hidden: bool)
    requires Inv(w) && w.relay.Some? && w.relay.value.durable && op.Unpair? && Explained(w, p, hidden)
    ensures Explained(Step(w, op).0, p, Hides(w, op, p, hidden))
  {
    var r := w.relay.value;
    RevokeCases(r, w.authority, op.peer, op.stamp, op.faults);
    if MayRevoke(r, op.peer, op.stamp) {
      RevokeCandidateSound(r, op.peer, op.stamp);
      CommitOutcome(Counted(r), w.authority, RevokeCandidate(r, op.peer, op.stamp.value), op.faults, p);
    }
  }

  lemma DurabilityIsFixed(w: World, op: Op)
    requires w.relay.Some? && Step(w, op).0.relay.Some?
    ensures Step(w, op).0.relay.value.durable == w.relay.value.durable
  {
  }

  lemma StepExplains(w: World, op: Op, p: Peer, hidden: bool)
    requires Inv(w) && Explained(w, p, hidden)
    ensures Explained(Step(w, op).0, p, Hides(w, op, p, hidden))
  {
    if w.relay.None? {
      if op.Boot? { BootExplains(w, op, p); }
    } else if Step(w, op).0.relay.Some? {
      DurabilityIsFixed(w, op);
      if w.relay.value.durable {
        if op.Pair? {
          PairExplains(w, op, p, hidden);
        } else if op.Unpair? {
          UnpairExplains(w, op, p, hidden);
        } else if !op.Boot? {
          QuietStepsPairNobody(w, op, p);
        }
      }
    }
  }

  lemma {:induction false} RunExplains(w: World, ops: seq<Op>, p: Peer, hidden: bool)
    requires Inv(w) && Explained(w, p, hidden)
    ensures Inv(Run(w, ops)) && Explained(Run(w, ops), p, Hidden(w, ops, p, hidden))
    decreases |ops|
  {
    if ops != [] {
      StepKeepsInv(w, ops[0]);
      StepExplains(w, ops[0], p, hidden);
      RunExplains(Step(w, ops[0]).0, ops[1..], p, Hides(w, ops[0], p, hidden));
    }
  }

  /** The peer stays unpaired through every later run that does not pair it. */
  ghost predicate StaysUnpaired(w: World, p: Peer) {
    forall later: seq<Op> | forall i | 0 <= i < |later| :: !Pairs(later[i], p) :: Unpaired(Run(w, later), p)
  }

  lemma StaysUnpairedExactlyWhenUnpaired(w: World, p: Peer)
    requires Inv(w)
    ensures StaysUnpaired(w, p) <==> Unpaired(w, p)
  {
    if Unpaired(w, p) {
      forall later: seq<Op> | forall i | 0 <= i < |later| :: !Pairs(later[i], p) ensures Unpaired(Run(w, later), p) {
        UnpairedSurvivesRun(w, later, p);
      }
    }
    assert Run(w, []) == w;
  }

  /**
   * After any run of a durable process a revocation that reports false is durable, through every later
   * crash, restart and other peers' traffic, exactly when it committed a revocation itself or nothing
   * called before in this process has hidden a pairing of that peer on disk.
   */
  lemma FalseIsDurableExactlyWhenNothingIsHidden(ops: seq<Op>, p: Peer, stamp: Option<nat>, faults: Faults)
    requires Run(EMPTY_WORLD, ops).relay.Some? && Run(EMPTY_WORLD, ops).relay.value.durable
    requires Step(Run(EMPTY_WORLD, ops), Unpair(p, stamp, faults)).1 == Outcome(Ok(false))
    ensures var w := Run(EMPTY_WORLD, ops);
      StaysUnpaired(Step(w, Unpair(p, stamp, faults)).0, p) <==>
        MayRevoke(w.relay.value, p, stamp) || !Hidden(EMPTY_WORLD, ops, p, false)
  {
    RunExplains(EMPTY_WORLD, ops, p, false);
    var w := Run(EMPTY_WORLD, ops);
    var r, op, hidden := w.relay.value, Unpair(p, stamp, faults), Hidden(EMPTY_WORLD, ops, p, false);
    StepKeepsInv(w, op);
    StaysUnpairedExactlyWhenUnpaired(Step(w, op).0, p);
    UnpairExplains(w, op, p, hidden);
    RevokeCases(r, w.authority, p, stamp, faults);
    if MayRevoke(r, p, stamp) {
      RevokeCandidateSound(r, p, stamp);
      CommitOutcome(Counted(r), w.authority, RevokeCandidate(r, p, stamp.value), faults, p);
    }
  }

  const SYNC_FAILS := Faults(SyncFails, false)

  /**
   * A second way to hide a pairing, with no lease involved: in a run from nothing the pairing of a new
   * peer is installed but reported as unknown, the revocation meant to undo it finds nothing to revoke,
   * and a restart pairs the peer.
   */
  lemma FalseAfterUnknownPairingIsNotDurable(identity: nat, maxConnections: nat, p: Peer, now: nat, stamp: nat, retry: Faults)
    requires identity != 0 && maxConnections > 0
    ensures var boot, pair := PlainBoot(identity, maxConnections, now), Pair(p, now, Some(stamp), SYNC_FAILS);
      var booted, unknown := Run(EMPTY_WORLD, [boot]), Run(EMPTY_WORLD, [boot, pair]);
      var revoked := Step(unknown, Unpair(p, Some(stamp), retry));
      && Step(booted, pair).1 == Outcome(Err(Unknown))
      && revoked.1 == Outcome(Ok(false))
      && !StaysUnpaired(revoked.0, p)
      && PairedInMemory(Run(revoked.0, [Crash, boot]), p)
  {
    var boot, pair := PlainBoot(identity, maxConnections, now), Pair(p, now, Some(stamp), SYNC_FAILS);
    var started := Started(identity, maxConnections);
    FirstBoot(identity, maxConnections, now);
    RunTakes(EMPTY_WORLD, boot, []);
    assert [boot] + [] == [boot];
    TwoSteps(EMPTY_WORLD, boot, pair);
    StartedWelcomes(identity, maxConnections, p, now, stamp);
    UndonePairing(started, p, now, stamp, retry);
    UndonePairingReturns(started, p, now, stamp, boot);
    TwoSteps(Step(started, pair).0, Crash, boot);
  }

  /** A new peer may be paired and its relation can still be committed. */
  ghost predicate Welcomes(w: World, p: Peer, now: nat, stamp: nat) {
    && Inv(w) && w.relay.Some? && !w.authority.locked
    && var r := w.relay.value;
    && r.durable && p !in r.pairings && MayPair(r, p, now, Some(stamp)) && RevisionOf(w.authority.record) == r.revision < U64_MAX
  }

  /** The boot starts a process of the same identity from the files of this one. */
  predicate Reboots(w: World, boot: Op) {
    && w.relay.Some? && boot.Boot? && boot.durable && boot.load == NoFault && boot.identity == w.relay.value.localIdentity
    && InstallFence(w.fence, boot.fenceLoad, boot.fenceFaults).1.Some?
  }

  lemma StartedWelcomes(identity: nat, maxConnections: nat, p: Peer, now: nat, stamp: nat)
    requires identity != 0 && maxConnections > 0
    ensures Welcomes(Started(identity, maxConnections), p, now, stamp)
    ensures Reboots(Started(identity, maxConnections), PlainBoot(identity, maxConnections, now))
  {
    FirstBoot(identity, maxConnections, now);
  }

  lemma UndonePairing(w: World, p: Peer, now: nat, stamp: nat, retry: Faults)
    requires Welcomes(w, p, now, stamp)
    ensures var (unknown, answer) := Step(w, Pair(p, now, Some(stamp), SYNC_FAILS));
      && answer == Outcome(Err(Unknown))
      && Step(unknown, Unpair(p, Some(stamp), retry)) == (unknown, Outcome(Ok(false)))
      && !StaysUnpaired(unknown, p)
  {
    UnknownPairing(w.relay.value, w.authority, p, now, Some(stamp));
    StepKeepsInv(w, Pair(p, now, Some(stamp), SYNC_FAILS));
    StaysUnpairedExactlyWhenUnpaired(Step(w, Pair(p, now, Some(stamp), SYNC_FAILS)).0, p);
  }

  lemma UndonePairingReturns(w: World, p: Peer, now: nat, stamp: nat, boot: Op)
    requires Welcomes(w, p, now, stamp) && Reboots(w, boot)
    ensures var unknown := Step(w, Pair(p, now, Some(stamp), SYNC_FAILS)).0;
      PairedInMemory(Step(Step(unknown, Crash).0, boot).0, p)
  {
    UnknownPairing(w.relay.value, w.authority, p, now, Some(stamp));
    StepKeepsInv(w, Pair(p, now, Some(stamp), SYNC_FAILS));
    RestartPairsAgain(Step(Step(w, Pair(p, now, Some(stamp), SYNC_FAILS)).0, Crash).0, p, boot);
  }

  lemma UnknownPairing(r: Relay, file: AuthorityFile, p: Peer, now: nat, stamp: Option<nat>)
    requires RelaySound(r) && r.durable && !file.locked && p !in r.pairings && MayPair(r, p, now, stamp)
    requires RevisionOf(file.record) == r.revision < U64_MAX
    ensures var (after, disk, result) := MarkPaired(r, file, p, now, stamp, SYNC_FAILS);
      && after == Counted(r) && result == Err(Unknown)
      && PairsOnDisk(disk.record, p) && !disk.locked && SameIdentity(disk.record.value.payload, r.localIdentity)
  {
    var candidate := PairCandidate(r, p, now, stamp.value);
    MarkPairedCases(r, file, p, now, stamp, SYNC_FAILS);
    PairCandidateSound(r, p, now, stamp);
    NewPeerIsAboveAggregate(r, p, now, stamp);
    UnknownCommit(Counted(r), file, candidate);
    RecordForIsSound(candidate, r.localIdentity, r.nextAttempt + 1, r.revision + 1);
    DiskPairsExactlyThePaired(candidate, r.localIdentity, r.nextAttempt + 1, r.revision + 1, p);
  }

  /** A commit whose directory sync fails is installed and reported as unknown. */
  lemma UnknownCommit(c: Relay, file: AuthorityFile, candidate: Pairings)
    requires Committable(candidate, c.localIdentity, c.nextAttempt) && c.durable && !file.locked
    requires RevisionOf(file.record) == c.revision < U64_MAX && MaxGeneration(RelationsOf(candidate)) >= c.aggregate
    ensures var (after, result) := CommitPairings(c, file, candidate, SYNC_FAILS);
      result == Err(Unknown) && after.record == Some(RecordFor(candidate, c.revision + 1)) && !after.locked
  {
    EncodeSucceeds(candidate, c.localIdentity, c.nextAttempt);
  }
}
