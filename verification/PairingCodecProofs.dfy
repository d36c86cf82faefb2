/** What the persisted pairing record says, and that restoring a committed record inverts encoding. */
module PairingCodecProofs {
  import opened Common
  import opened AuthorityStore
  import opened PairingAuthority

  lemma {:induction false} MaxGenerationBounds(relations: seq<Relation>)
    ensures forall i | 0 <= i < |relations| :: relations[i].generation <= MaxGeneration(relations)
    ensures relations != [] ==> exists i :: 0 <= i < |relations| && relations[i].generation == MaxGeneration(relations)
  {
    if relations != [] {
      var init := relations[..|relations| - 1];
      MaxGenerationBounds(init);
      forall i | 0 <= i < |relations| ensures relations[i].generation <= MaxGeneration(relations) {
        assert i < |init| ==> relations[i] == init[i];
      }
      if MaxGeneration(init) <= relations[|init|].generation {
        assert relations[|init|].generation == MaxGeneration(relations);
      } else {
        var i :| 0 <= i < |init| && init[i].generation == MaxGeneration(init);
        assert relations[i].generation == MaxGeneration(relations);
      }
    }
  }

  lemma {:induction false} MaxAttemptBounds(relations: seq<Relation>, bound: nat)
    requires forall i | 0 <= i < |relations| :: relations[i].lastAttempt < bound
    ensures forall i | 0 <= i < |relations| :: relations[i].lastAttempt <= MaxAttempt(relations)
    ensures relations != [] ==> MaxAttempt(relations) < bound
  {
    if relations != [] {
      var init := relations[..|relations| - 1];
      MaxAttemptBounds(init, bound);
      forall i | 0 <= i < |relations| ensures relations[i].lastAttempt <= MaxAttempt(relations) {
        assert i < |init| ==> relations[i] == init[i];
      }
    }
  }

  ghost predicate Mentions(relations: seq<Relation>, peer: Peer) {
    exists i :: 0 <= i < |relations| && relations[i].peer == peer
  }

  lemma {:induction false} PairingsOfLookup(relations: seq<Relation>, now: nat)
    requires NoDuplicates(relations)
    ensures forall p :: p in PairingsOf(relations, now) <==> Mentions(relations, p)
    ensures forall i | 0 <= i < |relations| ::
              relations[i].peer in PairingsOf(relations, now)
              && PairingsOf(relations, now)[relations[i].peer] == FromRelation(relations[i], now)
  {
    if relations != [] {
      var init := relations[..|relations| - 1];
      PairingsOfLookup(init, now);
      var all := PairingsOf(relations, now);
      forall i | 0 <= i < |relations|
        ensures relations[i].peer in all && all[relations[i].peer] == FromRelation(relations[i], now)
      {
        if i < |init| {
          assert relations[i] == init[i];
          assert relations[i].peer != relations[|init|].peer;
        }
      }
      forall p ensures p in all <==> Mentions(relations, p) {
        if p in all && p != relations[|init|].peer {
          var i :| 0 <= i < |init| && init[i].peer == p;
          assert relations[i].peer == p;
        }
      }
    }
  }

  /** The encoded list: one relation per listed peer, without repetition. */
  lemma RelationsOfLookup(pairings: Pairings)
    ensures var relations := RelationsOf(pairings);
      && NoDuplicates(relations)
      && (forall i | 0 <= i < |relations| ::
            relations[i].peer in ListedPeers(pairings)
            && relations[i] == ToRelation(relations[i].peer, pairings[relations[i].peer]))
      && (forall p | p in ListedPeers(pairings) :: Mentions(relations, p))
  {
    var peers := SortedKeys(ListedPeers(pairings));
    var relations := RelationsOf(pairings);
    forall i | 0 <= i < |relations|
      ensures relations[i].peer in ListedPeers(pairings)
              && relations[i] == ToRelation(relations[i].peer, pairings[relations[i].peer])
    {
      assert peers[i] in peers;
    }
    forall p | p in ListedPeers(pairings) ensures Mentions(relations, p) {
      assert p in peers;
      var i :| 0 <= i < |peers| && peers[i] == p;
      assert relations[i].peer == p;
    }
  }

  ghost predicate RecordSound(record: StoredRecord<seq<Relation>>) {
    && record.generation != 0
    && |record.payload| <= MAX_PAIRING_RECORDS
    && NoDuplicates(record.payload)
    && (forall i | 0 <= i < |record.payload| ::
          RelationAccepted(record.payload[i], record.generation) && record.payload[i].lastAttempt < U64_MAX)
    && (record.payload != [] ==> MaxGeneration(record.payload) == record.generation)
  }

  ghost predicate FileSound(record: Option<StoredRecord<seq<Relation>>>) {
    record.Some? ==> RecordSound(record.value)
  }

  /** The host file says that this peer is paired and not revoked. */
  ghost predicate PairsOnDisk(record: Option<StoredRecord<seq<Relation>>>, peer: Peer) {
    record.Some? && exists i :: 0 <= i < |record.value.payload| && record.value.payload[i].peer == peer && !record.value.payload[i].revoked
  }

  ghost predicate RecordsValid(pairings: Pairings, identity: nat, attempts: nat) {
    forall p | p in pairings ::
      && pairings[p].generation != 0
      && pairings[p].localIdentity == identity
      && pairings[p].peerIdentity != 0
      && pairings[p].updatedAt != 0
      && 0 < pairings[p].lastAttempt < attempts
      && !(pairings[p].paired && pairings[p].revoked)
  }

  /** The record a commit of this map would install at a revision. */
  ghost function RecordFor(pairings: Pairings, revision: nat): StoredRecord<seq<Relation>> {
    StoredRecord(revision, MaxGeneration(RelationsOf(pairings)), RelationsOf(pairings))
  }

  ghost predicate Committable(pairings: Pairings, identity: nat, attempts: nat) {
    && RecordsValid(pairings, identity, attempts)
    && identity != 0 && attempts <= U64_MAX
    && |pairings| <= MAX_PAIRING_RECORDS
    && ListedPeers(pairings) != {}
  }

  lemma EncodeSucceeds(pairings: Pairings, identity: nat, attempts: nat)
    requires Committable(pairings, identity, attempts)
    ensures RelationsOf(pairings) != [] && MaxGeneration(RelationsOf(pairings)) >= 1
    ensures Encode(pairings) == Ok(Encoded(RelationsOf(pairings), MaxGeneration(RelationsOf(pairings))))
    ensures |RelationsOf(pairings)| <= MAX_PAIRING_RECORDS
  {
    var relations := RelationsOf(pairings);
    SubsetCard(ListedPeers(pairings), pairings.Keys);
    RelationsOfLookup(pairings);
    MaxGenerationBounds(relations);
    assert relations[0].generation <= MaxGeneration(relations);
    assert pairings[relations[0].peer].generation != 0;
  }

  lemma ListedGenerationsBounded(pairings: Pairings, p: Peer)
    requires p in ListedPeers(pairings)
    ensures pairings[p].generation <= MaxGeneration(RelationsOf(pairings))
  {
    RelationsOfLookup(pairings);
    MaxGenerationBounds(RelationsOf(pairings));
    assert Mentions(RelationsOf(pairings), p);
  }

  lemma RecordForIsSound(pairings: Pairings, identity: nat, attempts: nat, revision: nat)
    requires Committable(pairings, identity, attempts)
    ensures RecordSound(RecordFor(pairings, revision)) && SameIdentity(RelationsOf(pairings), identity)
  {
    var relations := RelationsOf(pairings);
    EncodeSucceeds(pairings, identity, attempts);
    RelationsOfLookup(pairings);
    MaxGenerationBounds(relations);
    forall i | 0 <= i < |relations|
      ensures RelationAccepted(relations[i], MaxGeneration(relations))
      ensures relations[i].lastAttempt < U64_MAX && relations[i].localIdentity == identity
    {
      assert relations[i].peer in pairings;
    }
  }

  lemma DiskPairsExactlyThePaired(pairings: Pairings, identity: nat, attempts: nat, revision: nat, p: Peer)
    requires RecordsValid(pairings, identity, attempts)
    ensures PairsOnDisk(Some(RecordFor(pairings, revision)), p) <==> p in pairings && pairings[p].paired
  {
    RelationsOfLookup(pairings);
    if p in pairings && pairings[p].paired {
      assert p in ListedPeers(pairings) && Mentions(RelationsOf(pairings), p);
    }
  }

  /** The state a restart rebuilds from a map: listed peers only, challenge fields fresh. */
  function FreshPairings(pairings: Pairings, now: nat): Pairings {
    map p | p in ListedPeers(pairings) :: pairings[p].(failedAttempts := 0, windowStarted := now, challengeCount := 0)
  }

  lemma FreshPairingsRestored(pairings: Pairings, identity: nat, attempts: nat, now: nat)
    requires RecordsValid(pairings, identity, attempts)
    ensures PairingsOf(RelationsOf(pairings), now) == FreshPairings(pairings, now)
  {
    var relations := RelationsOf(pairings);
    RelationsOfLookup(pairings);
    PairingsOfLookup(relations, now);
    var restored := PairingsOf(relations, now);
    forall p ensures p in restored <==> p in FreshPairings(pairings, now) {
    }
    forall p | p in restored ensures restored[p] == FreshPairings(pairings, now)[p] {
      var i :| 0 <= i < |relations| && relations[i].peer == p;
    }
  }

  /**
   * Round trip: any record a commit installs is accepted by a restart under the same identity
   * generation, restores exactly the paired and revoked relations with fresh challenge fields, and
   * starts attempt identifiers above every persisted one.
   */
  lemma RestoreInvertsCommit(r: Relay, file: AuthorityFile, candidate: Pairings, faults: Faults, now: nat, retry: Faults)
    requires r.durable
    requires Committable(candidate, r.localIdentity, r.nextAttempt)
    requires CommitPairings(r, file, candidate, faults).0.record != file.record
    ensures var after := CommitPairings(r, file, candidate, faults).0;
      var attempts := MaxAttempt(RelationsOf(candidate));
      && Restore(after.(locked := false), r.localIdentity, now, NoFault, retry)
         == (after.(locked := false),
             Ok(Restored(FreshPairings(candidate, now), r.revision + 1, attempts + 1, after.record.value.generation)))
      && (forall p | p in ListedPeers(candidate) :: candidate[p].lastAttempt < attempts + 1)
  {
    var relations := RelationsOf(candidate);
    var after := CommitPairings(r, file, candidate, faults).0;
    EncodeSucceeds(candidate, r.localIdentity, r.nextAttempt);
    CommitInstallsSuccessorOrNothing(file, MaxGeneration(relations), relations, r.revision, faults);
    assert after.record == Some(RecordFor(candidate, r.revision + 1));
    RecordForIsSound(candidate, r.localIdentity, r.nextAttempt, r.revision + 1);
    RestoreSound(after.(locked := false), r.localIdentity, now, retry);
    FreshPairingsRestored(candidate, r.localIdentity, r.nextAttempt, now);
    RelationsOfLookup(candidate);
    MaxAttemptBounds(relations, U64_MAX);
    forall p | p in ListedPeers(candidate) ensures candidate[p].lastAttempt < MaxAttempt(relations) + 1 {
      assert Mentions(relations, p);
    }
  }

  /** A restart accepts every sound record of its own identity generation. */
  lemma RestoreSound(file: AuthorityFile, identity: nat, now: nat, retry: Faults)
    requires file.record.Some? && RecordSound(file.record.value) && file.record.value.payload != []
    requires SameIdentity(file.record.value.payload, identity) && identity != 0 && !file.locked
    ensures var relations := file.record.value.payload;
      Restore(file, identity, now, NoFault, retry)
      == (file, Ok(Restored(PairingsOf(relations, now), file.record.value.revision, MaxAttempt(relations) + 1, file.record.value.generation)))
  {
    MaxAttemptBounds(file.record.value.payload, U64_MAX);
  }

  /** At most one relation for each peer, none with a zero, none above the record's generation, and one at it. */
  predicate ConsistentRecord(record: StoredRecord<seq<Relation>>) {
    && record.generation > 0 && |record.payload| <= 64
    && (forall i, j | 0 <= i < j < |record.payload| :: record.payload[i].peer != record.payload[j].peer)
    && (forall i | 0 <= i < |record.payload| ::
          var r := record.payload[i];
          0 < r.generation <= record.generation && r.peerIdentity > 0 && r.updatedAt > 0 && r.lastAttempt > 0)
    && (record.payload != [] ==> exists i :: 0 <= i < |record.payload| && record.payload[i].generation == record.generation)
  }

  lemma ConsistentMaximum(record: StoredRecord<seq<Relation>>)
    requires record.payload != [] && forall i | 0 <= i < |record.payload| :: record.payload[i].generation <= record.generation
    ensures MaxGeneration(record.payload) == record.generation
            <==> exists i :: 0 <= i < |record.payload| && record.payload[i].generation == record.generation
  {
    MaxGenerationBounds(record.payload);
  }

  /** A readable record is refused as corrupt exactly when it is inconsistent, whoever asks. */
  lemma CorruptExactlyWhenInconsistent(file: AuthorityFile, identity: nat, now: nat, faults: Faults)
    requires file.record.Some? && !file.locked && identity != 0
    ensures Restore(file, identity, now, NoFault, faults).1 == Err(Corrupt) <==> !ConsistentRecord(file.record.value)
  {
    var record := file.record.value;
    if record.payload != [] && forall i | 0 <= i < |record.payload| :: record.payload[i].generation <= record.generation {
      ConsistentMaximum(record);
    }
  }

  /** Whatever the file holds, a restart accepts it only with an attempt counter above every attempt in it. */
  lemma RestoredAttemptsAreFresh(file: AuthorityFile, identity: nat, now: nat, load: Fault, faults: Faults)
    ensures var restored := Restore(file, identity, now, load, faults).1;
      restored.Ok? ==>
        && 1 <= restored.value.nextAttempt <= U64_MAX
        && forall p | p in restored.value.pairings :: restored.value.pairings[p].lastAttempt < restored.value.nextAttempt
  {
    if Restore(file, identity, now, load, faults).1.Ok? && file.record.Some? {
      var relations := file.record.value.payload;
      AttemptsBelow(relations, now);
    }
  }

  lemma {:induction false} AttemptsBelow(relations: seq<Relation>, now: nat)
    ensures forall p | p in PairingsOf(relations, now) :: PairingsOf(relations, now)[p].lastAttempt <= MaxAttempt(relations)
  {
    if relations != [] {
      AttemptsBelow(relations[..|relations| - 1], now);
    }
  }
}
