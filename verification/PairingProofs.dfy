/** What every operation of the pairing authority keeps, and what holds over whole runs with crashes. */
module PairingProofs {
  import opened Common
  import opened AuthorityStore
  import opened PairingAuthority
  import opened PairingCodecProofs

  ghost predicate RelaySound(r: Relay) {
    && r.localIdentity != 0
    && 0 < r.nextAttempt <= U64_MAX
    && |r.pairings| <= MAX_PAIRING_RECORDS
    && RecordsValid(r.pairings, r.localIdentity, r.nextAttempt)
    && (forall p | p in r.pairings ::
          r.pairings[p].failedAttempts <= MAX_PAIRING_ATTEMPTS
          && r.pairings[p].challengeCount <= MAX_PAIRING_CHALLENGES_PER_WINDOW)
  }

  /** Every peer paired in memory is recorded as paired and not revoked on disk. */
  ghost predicate Backed(r: Relay, record: Option<StoredRecord<seq<Relation>>>) {
    forall p | p in r.pairings && r.pairings[p].paired :: PairsOnDisk(record, p)
  }

  /** A process whose revision is current also knows the aggregate generation on disk. */
  predicate Versioned(r: Relay, record: Option<StoredRecord<seq<Relation>>>) {
    && r.revision <= RevisionOf(record)
    && (r.revision == RevisionOf(record) ==> r.aggregate == GenerationOf(record))
  }

  ghost predicate Anchored(r: Relay, record: Option<StoredRecord<seq<Relation>>>) {
    RelaySound(r) && (r.durable ==> Backed(r, record) && Versioned(r, record))
  }

  ghost predicate Inv(w: World) {
    && FileSound(w.authority.record)
    && (w.relay.Some? ==> Anchored(w.relay.value, w.authority.record))
  }

  /** What a commit may do to the record: nothing, or install exactly the candidate map. */
  ghost predicate InstalledOrUntouched(r: Relay, before: AuthorityFile, candidate: Pairings, after: AuthorityFile) {
    || after.record == before.record
    || (after.record == Some(RecordFor(candidate, r.revision + 1))
        && RevisionOf(before.record) == r.revision
        && RecordFor(candidate, r.revision + 1).generation >= r.aggregate)
  }

  lemma CommitEffect(r: Relay, file: AuthorityFile, candidate: Pairings, faults: Faults)
    requires Committable(candidate, r.localIdentity, r.nextAttempt)
    ensures var (after, result) := CommitPairings(r, file, candidate, faults);
      && InstalledOrUntouched(r, file, candidate, after)
      && (result.Ok? ==>
            && result.value.generation == MaxGeneration(RelationsOf(candidate)) >= r.aggregate
            && (r.durable ==> after.record == Some(RecordFor(candidate, r.revision + 1)) && result.value.revision == r.revision + 1))
      && (result.Err? && result.error == Corrupt <==> MaxGeneration(RelationsOf(candidate)) < r.aggregate)
      && (!r.durable ==> after == file)
  {
    EncodeSucceeds(candidate, r.localIdentity, r.nextAttempt);
    var relations := RelationsOf(candidate);
    assert candidate != map[];
    CommitInstallsSuccessorOrNothing(file, MaxGeneration(relations), relations, r.revision, faults);
  }

  /** Shared by pairing and revocation: the disk stays sound and covers whatever the candidate pairs. */
  lemma CommitKeepsDisk(r: Relay, file: AuthorityFile, candidate: Pairings, faults: Faults)
    requires Committable(candidate, r.localIdentity, r.nextAttempt) && FileSound(file.record)
    requires r.durable ==> Versioned(r, file.record)
    ensures var after := CommitPairings(r, file, candidate, faults).0;
      && FileSound(after.record)
      && RevisionOf(after.record) >= RevisionOf(file.record)
      && GenerationOf(after.record) >= GenerationOf(file.record)
      && (after.record != file.record ==>
            forall p :: PairsOnDisk(after.record, p) <==> p in candidate && candidate[p].paired)
  {
    CommitEffect(r, file, candidate, faults);
    var after := CommitPairings(r, file, candidate, faults).0;
    if after.record != file.record {
      RecordForIsSound(candidate, r.localIdentity, r.nextAttempt, r.revision + 1);
      forall p ensures PairsOnDisk(after.record, p) <==> p in candidate && candidate[p].paired {
        DiskPairsExactlyThePaired(candidate, r.localIdentity, r.nextAttempt, r.revision + 1, p);
      }
    }
  }

  predicate MayPair(r: Relay, peer: Peer, now: nat, stamp: Option<nat>) {
    && (peer in r.pairings || |r.pairings| < r.MaxPairingRecords())
    && !RecordToPair(r, peer, now).paired
    && BaseGeneration(r, RecordToPair(r, peer, now)) < U64_MAX
    && stamp.Some? && r.nextAttempt < U64_MAX
  }

  function PairCandidate(r: Relay, peer: Peer, now: nat, stamp: nat): Pairings {
    r.pairings[peer := PairedRecord(r, RecordToPair(r, peer, now), stamp)]
  }

  predicate MayRevoke(r: Relay, peer: Peer, stamp: Option<nat>) {
    && peer in r.pairings && !r.pairings[peer].revoked
    && r.pairings[peer].generation < U64_MAX
    && stamp.Some? && r.nextAttempt < U64_MAX
  }

  function RevokeCandidate(r: Relay, peer: Peer, stamp: nat): Pairings
    requires peer in r.pairings
  {
    r.pairings[peer := RevokedRecord(r, r.pairings[peer], stamp)]
  }

  function Counted(r: Relay): Relay {
    r.(nextAttempt := r.nextAttempt + 1)
  }

  lemma PairCandidateSound(r: Relay, peer: Peer, now: nat, stamp: Option<nat>)
    requires RelaySound(r) && MayPair(r, peer, now, stamp)
    ensures var candidate := PairCandidate(r, peer, now, stamp.value);
      && RelaySound(Counted(r).(pairings := candidate))
      && Committable(candidate, r.localIdentity, r.nextAttempt + 1)
      && peer in ListedPeers(candidate)
  {
    var candidate := PairCandidate(r, peer, now, stamp.value);
    assert candidate.Keys == r.pairings.Keys + {peer};
    assert peer in ListedPeers(candidate);
  }

  lemma RevokeCandidateSound(r: Relay, peer: Peer, stamp: Option<nat>)
    requires RelaySound(r) && MayRevoke(r, peer, stamp)
    ensures var candidate := RevokeCandidate(r, peer, stamp.value);
      && RelaySound(Counted(r).(pairings := candidate))
      && Committable(candidate, r.localIdentity, r.nextAttempt + 1)
      && peer in ListedPeers(candidate)
  {
    var candidate := RevokeCandidate(r, peer, stamp.value);
    assert candidate.Keys == r.pairings.Keys;
    assert peer in ListedPeers(candidate);
  }

  lemma DistrustSound(r: Relay, peer: Peer)
    requires RelaySound(r) && peer in r.pairings
    ensures RelaySound(Distrust(r, peer))
  {
    assert Distrust(r, peer).pairings.Keys == r.pairings.Keys;
  }

  /** An error of the commit, known or not, leaves a process that claims no more than the disk. */
  lemma FailedCommitKeepsInv(c: Relay, file: AuthorityFile, candidate: Pairings, faults: Faults, kept: Relay)
    requires Committable(candidate, c.localIdentity, c.nextAttempt) && FileSound(file.record)
    requires c.durable ==> Versioned(c, file.record) && Backed(kept, file.record)
    requires RelaySound(kept) && kept.revision == c.revision && kept.aggregate == c.aggregate && kept.durable == c.durable
    requires forall p | p in kept.pairings && kept.pairings[p].paired :: p in candidate && candidate[p].paired
    ensures Anchored(kept, CommitPairings(c, file, candidate, faults).0.record)
  {
    CommitEffect(c, file, candidate, faults);
    CommitKeepsDisk(c, file, candidate, faults);
  }

  function Adopted(c: Relay, candidate: Pairings, committed: Committed): Relay {
    c.(pairings := candidate, revision := committed.revision, aggregate := committed.generation)
  }

  lemma ReportedCommitKeepsInv(c: Relay, file: AuthorityFile, candidate: Pairings, faults: Faults)
    requires Committable(candidate, c.localIdentity, c.nextAttempt) && FileSound(file.record)
    requires c.durable ==> Versioned(c, file.record)
    requires RelaySound(c.(pairings := candidate))
    requires CommitPairings(c, file, candidate, faults).1.Ok?
    ensures var (after, result) := CommitPairings(c, file, candidate, faults);
      Anchored(Adopted(c, candidate, result.value), after.record)
  {
    CommitEffect(c, file, candidate, faults);
    CommitKeepsDisk(c, file, candidate, faults);
    var (after, result) := CommitPairings(c, file, candidate, faults);
    if c.durable {
      forall p | p in candidate && candidate[p].paired ensures PairsOnDisk(after.record, p) {
        DiskPairsExactlyThePaired(candidate, c.localIdentity, c.nextAttempt, c.revision + 1, p);
      }
    }
  }

  lemma MarkPairedCases(r: Relay, file: AuthorityFile, peer: Peer, now: nat, stamp: Option<nat>, faults: Faults)
    ensures var (after, disk, result) := MarkPaired(r, file, peer, now, stamp, faults);
      if MayPair(r, peer, now, stamp) then
        var candidate := PairCandidate(r, peer, now, stamp.value);
        var (d, c) := CommitPairings(Counted(r), file, candidate, faults);
        disk == d && (if c.Ok? then after == Adopted(Counted(r), candidate, c.value) && result == Ok(true)
                      else after == Counted(r) && result == Err(c.error))
      else after == r && disk == file && (result.Ok? || result.error == Unknown)
  {
  }

  lemma RevokeCases(r: Relay, file: AuthorityFile, peer: Peer, stamp: Option<nat>, faults: Faults)
    ensures var (after, disk, result) := Revoke(r, file, peer, stamp, faults);
      if MayRevoke(r, peer, stamp) then
        var candidate := RevokeCandidate(r, peer, stamp.value);
        var (d, c) := CommitPairings(Counted(r), file, candidate, faults);
        disk == d && (if c.Ok? then after == Adopted(Counted(r), candidate, c.value) && result == Ok(r.pairings[peer].paired)
                      else after == Distrust(Counted(r), peer) && result == Err(c.error))
      else if peer !in r.pairings then (after, disk, result) == (r, file, Ok(false))
      else if r.pairings[peer].revoked then (after, disk, result) == (r, file, Ok(r.pairings[peer].paired))
      else (after, disk, result) == (Distrust(r, peer), file, Err(Unknown))
  {
  }

  lemma MarkPairedKeepsInv(r: Relay, file: AuthorityFile, peer: Peer, now: nat, stamp: Option<nat>, faults: Faults)
    requires FileSound(file.record) && Anchored(r, file.record)
    ensures var (after, disk, result) := MarkPaired(r, file, peer, now, stamp, faults);
      && FileSound(disk.record) && Anchored(after, disk.record)
      && RevisionOf(disk.record) >= RevisionOf(file.record)
      && GenerationOf(disk.record) >= GenerationOf(file.record)
  {
    MarkPairedCases(r, file, peer, now, stamp, faults);
    if MayPair(r, peer, now, stamp) {
      var candidate := PairCandidate(r, peer, now, stamp.value);
      PairCandidateSound(r, peer, now, stamp);
      CommitKeepsDisk(Counted(r), file, candidate, faults);
      if CommitPairings(Counted(r), file, candidate, faults).1.Ok? {
        ReportedCommitKeepsInv(Counted(r), file, candidate, faults);
      } else {
        FailedCommitKeepsInv(Counted(r), file, candidate, faults, Counted(r));
      }
    }
  }

  lemma RevokeKeepsInv(r: Relay, file: AuthorityFile, peer: Peer, stamp: Option<nat>, faults: Faults)
    requires FileSound(file.record) && Anchored(r, file.record)
    ensures var (after, disk, result) := Revoke(r, file, peer, stamp, faults);
      && FileSound(disk.record) && Anchored(after, disk.record)
      && RevisionOf(disk.record) >= RevisionOf(file.record)
      && GenerationOf(disk.record) >= GenerationOf(file.record)
  {
    RevokeCases(r, file, peer, stamp, faults);
    if MayRevoke(r, peer, stamp) {
      var candidate := RevokeCandidate(r, peer, stamp.value);
      RevokeCandidateSound(r, peer, stamp);
      CommitKeepsDisk(Counted(r), file, candidate, faults);
      if CommitPairings(Counted(r), file, candidate, faults).1.Ok? {
        ReportedCommitKeepsInv(Counted(r), file, candidate, faults);
      } else {
        DistrustSound(Counted(r), peer);
        FailedCommitKeepsInv(Counted(r), file, candidate, faults, Distrust(Counted(r), peer));
      }
    } else if peer in r.pairings {
      DistrustSound(r, peer);
    }
  }

  /** Observing a peer adds at most its own unlisted record. */
  lemma ObserveShape(r: Relay, peer: Peer, now: nat, stamp: Option<nat>)
    ensures var after := Observe(r, peer, now, stamp).0;
      && after == r.(pairings := after.pairings, nextAttempt := after.nextAttempt)
      && (after.pairings == r.pairings
          || (peer !in r.pairings && stamp.Some? && after.pairings == r.pairings[peer := NewRecord(r, now, stamp.value)]))
      && (peer in r.pairings ==> after == r)
  {
  }

  lemma ObserveFrame(r: Relay, peer: Peer, now: nat, stamp: Option<nat>)
    ensures var after := Observe(r, peer, now, stamp).0;
      && (forall p | p != peer :: p in after.pairings <==> p in r.pairings)
      && (forall p | p in after.pairings && p != peer :: after.pairings[p] == r.pairings[p])
      && (peer in after.pairings && peer !in r.pairings ==> !Listed(after.pairings[peer]))
  {
    ObserveShape(r, peer, now, stamp);
  }

  lemma NewRecordSound(r: Relay, peer: Peer, now: nat, stamp: nat)
    requires RelaySound(r) && peer !in r.pairings && |r.pairings| < MAX_PAIRING_RECORDS && r.nextAttempt < U64_MAX
    ensures RelaySound(Counted(r).(pairings := r.pairings[peer := NewRecord(r, now, stamp)]))
  {
    var grown := r.pairings[peer := NewRecord(r, now, stamp)];
    assert grown.Keys == r.pairings.Keys + {peer};
  }

  lemma ObserveSound(r: Relay, peer: Peer, now: nat, stamp: Option<nat>)
    requires RelaySound(r)
    ensures RelaySound(Observe(r, peer, now, stamp).0)
  {
    var after := Observe(r, peer, now, stamp).0;
    if after.pairings != r.pairings {
      NewRecordSound(r, peer, now, stamp.value);
    }
  }

  lemma ObserveKeepsInv(r: Relay, record: Option<StoredRecord<seq<Relation>>>, peer: Peer, now: nat, stamp: Option<nat>)
    requires Anchored(r, record)
    ensures Anchored(Observe(r, peer, now, stamp).0, record)
  {
    ObserveSound(r, peer, now, stamp);
    ObserveShape(r, peer, now, stamp);
    ObserveFrame(r, peer, now, stamp);
  }

  /** Replacing challenge fields of one record touches nothing durable. */
  lemma ChallengeFieldsKeepInv(r: Relay, record: Option<StoredRecord<seq<Relation>>>, peer: Peer, next: PairingRecord)
    requires Anchored(r, record) && peer in r.pairings
    requires next == r.pairings[peer].(failedAttempts := next.failedAttempts, windowStarted := next.windowStarted, challengeCount := next.challengeCount)
    requires next.failedAttempts <= MAX_PAIRING_ATTEMPTS && next.challengeCount <= MAX_PAIRING_CHALLENGES_PER_WINDOW
    ensures Anchored(r.(pairings := r.pairings[peer := next]), record)
  {
    assert r.pairings[peer := next].Keys == r.pairings.Keys;
  }

  lemma ReserveKeepsInv(r: Relay, record: Option<StoredRecord<seq<Relation>>>, peer: Peer, now: nat, stamp: Option<nat>)
    requires Anchored(r, record)
    ensures Anchored(ReserveChallenge(r, peer, now, stamp).0, record)
  {
    ObserveKeepsInv(r, record, peer, now, stamp);
    var observed := Observe(r, peer, now, stamp).0;
    if peer in observed.pairings {
      ChallengeFieldsKeepInv(observed, record, peer, TakeChallenge(observed.pairings[peer], now).0);
    }
  }

  lemma FailureKeepsInv(r: Relay, record: Option<StoredRecord<seq<Relation>>>, peer: Peer, now: nat, stamp: Option<nat>)
    requires Anchored(r, record)
    ensures Anchored(RecordFailure(r, peer, now, stamp).0, record)
  {
    ObserveKeepsInv(r, record, peer, now, stamp);
    var observed := Observe(r, peer, now, stamp).0;
    var failed := RecordFailure(r, peer, now, stamp).0;
    if failed != observed {
      ChallengeFieldsKeepInv(observed, record, peer, failed.pairings[peer]);
    }
  }

  lemma AdmitKeepsInv(r: Relay, record: Option<StoredRecord<seq<Relation>>>, peer: Peer)
    requires Anchored(r, record)
    ensures Anchored(Admit(r, peer).0, record)
  {
    var after := Admit(r, peer).0;
    assert after == r.(active := after.active, leases := after.leases, nextGeneration := after.nextGeneration);
  }

  /** A dropped lease forgets at most the record of its own peer, and only an unlisted one. */
  lemma DropShape(r: Relay, lease: Lease)
    ensures var after := DropLease(r, lease);
      && after == r.(active := after.active, leases := after.leases, pairings := after.pairings)
      && (after.pairings == r.pairings
          || (lease.peer in r.pairings && !Listed(r.pairings[lease.peer]) && after.pairings == r.pairings - {lease.peer}))
  {
  }

  lemma ForgetKeepsInv(r: Relay, record: Option<StoredRecord<seq<Relation>>>, peer: Peer)
    requires Anchored(r, record)
    ensures Anchored(r.(pairings := r.pairings - {peer}), record)
  {
    SubsetCard((r.pairings - {peer}).Keys, r.pairings.Keys);
  }

  lemma DropKeepsInv(r: Relay, record: Option<StoredRecord<seq<Relation>>>, lease: Lease)
    requires Anchored(r, record)
    ensures Anchored(DropLease(r, lease), record)
  {
    DropShape(r, lease);
    ForgetKeepsInv(r, record, lease.peer);
  }

  lemma RestoredMapSound(relations: seq<Relation>, aggregate: nat, identity: nat, now: nat)
    requires RecordSound(StoredRecord(0, aggregate, relations)) && SameIdentity(relations, identity) && identity != 0
    ensures var pairings := PairingsOf(relations, now);
      && RecordsValid(pairings, identity, MaxAttempt(relations) + 1)
      && |pairings| <= |relations|
      && (forall p | p in pairings :: pairings[p].failedAttempts == 0 && pairings[p].challengeCount == 0)
      && (forall p | p in pairings && pairings[p].paired ::
            exists i :: 0 <= i < |relations| && relations[i].peer == p && !relations[i].revoked)
  {
    PairingsOfLookup(relations, now);
    MaxAttemptBounds(relations, U64_MAX);
    var pairings := PairingsOf(relations, now);
    forall p | p in pairings
      ensures exists i :: 0 <= i < |relations| && relations[i].peer == p && pairings[p] == FromRelation(relations[i], now)
    {
      assert Mentions(relations, p);
    }
    PairingsOfSize(relations, now);
  }

  lemma {:induction false} PairingsOfSize(relations: seq<Relation>, now: nat)
    ensures |PairingsOf(relations, now)| <= |relations|
  {
    if relations != [] {
      var init := relations[..|relations| - 1];
      PairingsOfSize(init, now);
      var last := relations[|init|];
      assert PairingsOf(relations, now).Keys == PairingsOf(init, now).Keys + {last.peer};
    }
  }

  /** A restart from any sound file starts an anchored process and never lowers what is on disk. */
  lemma RestoreKeepsInv(file: AuthorityFile, identity: nat, now: nat, load: Fault, faults: Faults, maxConnections: nat, epoch: nat)
    requires FileSound(file.record)
    ensures var (after, restored) := Restore(file, identity, now, load, faults);
      && FileSound(after.record)
      && RevisionOf(after.record) >= RevisionOf(file.record)
      && GenerationOf(after.record) >= GenerationOf(file.record)
      && (after.record != file.record ==> after.record.Some? && after.record.value.payload == [])
      && (restored.Ok? ==> Anchored(StartRelay(true, maxConnections, identity, epoch, restored.value), after.record))
      && (restored.Err? ==> restored.error != Corrupt)
  {
    if identity != 0 && LoadFile(file, load).Ok? && file.record.Some? {
      var record := file.record.value;
      if record.payload != [] && SameIdentity(record.payload, identity) {
        RestoreOwnKeepsInv(file, identity, now, faults, maxConnections, epoch);
      } else if record.payload != [] {
        ReplaceKeepsInv(file, identity, now, faults, maxConnections, epoch);
      }
    }
  }

  lemma RestoreOwnKeepsInv(file: AuthorityFile, identity: nat, now: nat, faults: Faults, maxConnections: nat, epoch: nat)
    requires file.record.Some? && RecordSound(file.record.value) && file.record.value.payload != []
    requires SameIdentity(file.record.value.payload, identity) && identity != 0
    ensures var (after, restored) := RestoreRecord(file, file.record.value, identity, now, faults);
      after == file && restored.Ok? && Anchored(StartRelay(true, maxConnections, identity, epoch, restored.value), file.record)
  {
    var record := file.record.value;
    RestoredMapSound(record.payload, record.generation, identity, now);
    MaxAttemptBounds(record.payload, U64_MAX);
    var (_, restored) := RestoreRecord(file, record, identity, now, faults);
    var r := StartRelay(true, maxConnections, identity, epoch, restored.value);
    assert r.pairings == PairingsOf(record.payload, now);
    assert Backed(r, file.record);
  }

  lemma ReplaceKeepsInv(file: AuthorityFile, identity: nat, now: nat, faults: Faults, maxConnections: nat, epoch: nat)
    requires file.record.Some? && RecordSound(file.record.value) && file.record.value.payload != []
    requires !SameIdentity(file.record.value.payload, identity) && identity != 0
    ensures var (after, restored) := RestoreRecord(file, file.record.value, identity, now, faults);
      && (after.record == file.record
          || after.record == Some(StoredRecord(RevisionOf(file.record) + 1, GenerationOf(file.record) + 1, [])))
      && (restored.Ok? ==> Anchored(StartRelay(true, maxConnections, identity, epoch, restored.value), after.record))
      && (restored.Err? ==> restored.error != Corrupt)
  {
    var record := file.record.value;
    CommitInstallsSuccessorOrNothing(file, record.generation + 1, [], record.revision, faults);
  }

  lemma StepKeepsInv(w: World, op: Op)
    requires Inv(w)
    ensures Inv(Step(w, op).0)
    ensures RevisionOf(Step(w, op).0.authority.record) >= RevisionOf(w.authority.record)
    ensures GenerationOf(Step(w, op).0.authority.record) >= GenerationOf(w.authority.record)
  {
    if op.Boot? {
      RestoreKeepsInv(w.authority, op.identity, op.bootNow, op.load, op.replaceFaults, op.maxConnections,
                      var e := InstallFence(w.fence, op.fenceLoad, op.fenceFaults).1; if e.Some? then e.value else 0);
    } else if w.relay.Some? {
      var r := w.relay.value;
      match op
      case Reserve(peer, now, stamp) => ReserveKeepsInv(r, w.authority.record, peer, now, stamp);
      case Fail(peer, now, stamp) => FailureKeepsInv(r, w.authority.record, peer, now, stamp);
      case Pair(peer, now, stamp, faults) => MarkPairedKeepsInv(r, w.authority, peer, now, stamp, faults);
      case Unpair(peer, stamp, faults) => RevokeKeepsInv(r, w.authority, peer, stamp, faults);
      case Connect(peer) => AdmitKeepsInv(r, w.authority.record, peer);
      case Disconnect(lease) => DropKeepsInv(r, w.authority.record, lease);
      case Shutdown =>
      case Crash =>
    }
  }

  lemma {:induction false} RunKeepsInv(w: World, ops: seq<Op>)
    requires Inv(w)
    ensures Inv(Run(w, ops))
    ensures RevisionOf(Run(w, ops).authority.record) >= RevisionOf(w.authority.record)
    ensures GenerationOf(Run(w, ops).authority.record) >= GenerationOf(w.authority.record)
    decreases |ops|
  {
    if ops != [] {
      StepKeepsInv(w, ops[0]);
      RunKeepsInv(Step(w, ops[0]).0, ops[1..]);
    }
  }

  // ---------------------------------------------------------------- theorems over all runs

  /** Across failed and unknown commits, crashes and restarts, memory never pairs a peer the disk does not. */
  lemma PairedInMemoryIsPairedOnDisk(ops: seq<Op>, p: Peer)
    ensures var w := Run(EMPTY_WORLD, ops);
      w.relay.Some? && w.relay.value.durable && p in w.relay.value.pairings && w.relay.value.pairings[p].paired
      ==> PairsOnDisk(w.authority.record, p)
  {
    RunKeepsInv(EMPTY_WORLD, ops);
  }

  /** The aggregate generation and the revision on disk never decrease. */
  lemma DiskNeverRegresses(before: seq<Op>, after: seq<Op>)
    ensures var w, n := Run(EMPTY_WORLD, before), Run(Run(EMPTY_WORLD, before), after);
      && GenerationOf(n.authority.record) >= GenerationOf(w.authority.record)
      && RevisionOf(n.authority.record) >= RevisionOf(w.authority.record)
  {
    RunKeepsInv(EMPTY_WORLD, before);
    RunKeepsInv(Run(EMPTY_WORLD, before), after);
  }

  /** No reachable file makes a restart fail as corrupt, under any identity generation and any fault. */
  lemma RestartNeverFindsCorruption(ops: seq<Op>, identity: nat, now: nat, load: Fault, faults: Faults)
    ensures Restore(Run(EMPTY_WORLD, ops).authority, identity, now, load, faults).1 != Err(Corrupt)
  {
    RunKeepsInv(EMPTY_WORLD, ops);
    RestoreKeepsInv(Run(EMPTY_WORLD, ops).authority, identity, now, load, faults, 0, 0);
  }
}
