/** The Relay's admission state object (src/iroh_endpoint.rs), updated in place. */
module IrohRelay {
  import opened Common
  import opened AuthorityStore
  import opened PairingAuthority
  import opened PairingCodecProofs
  import opened PairingProofs

  /** `order` enumerates the listed keys in map order; exactly those before `n` have been visited. */
  ghost predicate Visited(pairings: Pairings, order: seq<Peer>, todo: set<Peer>, n: nat) {
    && n <= |order|
    && Ascending(order)
    && (forall p :: p in order <==> p in ListedPeers(pairings))
    && (forall i | 0 <= i < |order| :: order[i] in todo <==> n <= i)
  }

  /** Relation by relation, what has been written for the first `n` listed peers. */
  ghost predicate Written(pairings: Pairings, order: seq<Peer>, n: nat, relations: seq<Relation>) {
    && n == |relations| <= |order|
    && forall i | 0 <= i < n ::
         order[i] in pairings && Encodable(pairings[order[i]]) && relations[i] == ToRelation(order[i], pairings[order[i]])
  }

  lemma StartListing(pairings: Pairings) returns (order: seq<Peer>)
    ensures order == SortedKeys(ListedPeers(pairings))
    ensures Visited(pairings, order, pairings.Keys, 0)
  {
    order := SortedKeys(ListedPeers(pairings));
    forall i | 0 <= i < |order| ensures order[i] in pairings.Keys {
      assert order[i] in order;
    }
  }

  lemma VisitListed(pairings: Pairings, order: seq<Peer>, todo: set<Peer>, n: nat, peer: Peer)
    requires Visited(pairings, order, todo, n) && IsLeast(peer, todo) && peer in pairings && Listed(pairings[peer])
    ensures n < |order| && order[n] == peer
    ensures Visited(pairings, order, todo - {peer}, n + 1)
  {
    assert peer in order;
    var k :| 0 <= k < |order| && order[k] == peer;
    assert n < |order| && order[n] in todo;
  }

  lemma VisitUnlisted(pairings: Pairings, order: seq<Peer>, todo: set<Peer>, n: nat, peer: Peer)
    requires Visited(pairings, order, todo, n) && peer in pairings && !Listed(pairings[peer])
    ensures Visited(pairings, order, todo - {peer}, n)
  {
    forall i | 0 <= i < |order| ensures order[i] != peer {
      assert order[i] in order;
    }
  }

  lemma WriteNext(relations: seq<Relation>, relation: Relation)
    ensures MaxGeneration(relations + [relation]) == Max(MaxGeneration(relations), relation.generation)
  {
    assert (relations + [relation])[..|relations|] == relations;
  }

  lemma WrittenIsRelations(pairings: Pairings, order: seq<Peer>, relations: seq<Relation>)
    requires order == SortedKeys(ListedPeers(pairings))
    requires Written(pairings, order, |order|, relations)
    ensures relations == RelationsOf(pairings)
  {
  }

  ghost predicate AllEncodable(pairings: Pairings) {
    forall p | p in ListedPeers(pairings) :: Encodable(pairings[p])
  }

  lemma AllWrittenEncodable(pairings: Pairings, order: seq<Peer>, todo: set<Peer>, relations: seq<Relation>, n: nat)
    requires todo == {} && Visited(pairings, order, todo, n) && Written(pairings, order, n, relations)
    ensures n == |order|
    ensures AllEncodable(pairings)
  {
    if order != [] {
      var next := if n < |order| then n else 0;
      assert order[next] !in todo;
    }
    forall p | p in ListedPeers(pairings) ensures Encodable(pairings[p]) {
      assert p in order;
    }
  }

  lemma EncodedWhenEncodable(pairings: Pairings)
    requires AllEncodable(pairings)
    ensures Encode(pairings)
         == if |RelationsOf(pairings)| > MAX_PAIRING_RECORDS then Err(Invalid)
            else Ok(Encoded(RelationsOf(pairings), Max(1, MaxGeneration(RelationsOf(pairings)))))
  {
  }

  method LeastOf(keys: set<Peer>) returns (peer: Peer)
    requires keys != {}
    ensures IsLeast(peer, keys)
  {
    LeastExists(keys);
    ghost var least :| IsLeast(least, keys);
    peer :| peer in keys && forall p | p in keys :: peer <= p;
  }

  /** Collect only paired or revoked relations, in map order, with the largest generation among them. */
  method ListRelations(pairings: Pairings) returns (listed: Option<Encoded>)
    ensures listed.Some? <==> AllEncodable(pairings)
    ensures listed.Some? ==> listed.value == Encoded(RelationsOf(pairings), Max(1, MaxGeneration(RelationsOf(pairings))))
  {
    var relations: seq<Relation> := [];
    var aggregate := 1;
    var todo := pairings.Keys;
    ghost var order := StartListing(pairings);
    while todo != {}
      invariant todo <= pairings.Keys
      invariant Visited(pairings, order, todo, |relations|)
      invariant Written(pairings, order, |relations|, relations)
      invariant aggregate == Max(1, MaxGeneration(relations))
      decreases |todo|
    {
      var peer := LeastOf(todo);
      var record := pairings[peer];
      if Listed(record) {
        VisitListed(pairings, order, todo, |relations|, peer);
        if !Encodable(record) {
          return None;
        }
        WriteNext(relations, ToRelation(peer, record));
        relations := relations + [ToRelation(peer, record)];
        aggregate := Max(aggregate, record.generation);
      } else {
        VisitUnlisted(pairings, order, todo, |relations|, peer);
      }
      todo := todo - {peer};
    }
    AllWrittenEncodable(pairings, order, todo, relations, |relations|);
    WrittenIsRelations(pairings, order, relations);
    return Some(Encoded(relations, aggregate));
  }

  /** Encode the listed relations, or refuse a map holding more of them than a store may carry. */
  method EncodePairingAuthority(pairings: Pairings) returns (result: Result<Encoded, StoreError>)
    ensures result == Encode(pairings)
  {
    var listed := ListRelations(pairings);
    if listed.None? || |listed.value.relations| > MAX_PAIRING_RECORDS {
      return Err(Invalid);
    }
    EncodedWhenEncodable(pairings);
    return Ok(listed.value);
  }

  datatype Folded = Folded(pairings: Pairings, maxGeneration: nat, maxAttempt: nat, stale: bool)

  /** Validate and collect persisted relations, accumulating the maxima. */
  method CollectRelations(relations: seq<Relation>, aggregate: nat, identity: nat, now: nat)
    returns (result: Result<Folded, StoreError>)
    ensures result.Err? <==> (exists i | 0 <= i < |relations| :: !RelationAccepted(relations[i], aggregate)) || !NoDuplicates(relations)
    ensures result.Err? ==> result.error == Corrupt
    ensures result.Ok? ==> result.value == Folded(PairingsOf(relations, now), MaxGeneration(relations), MaxAttempt(relations), !SameIdentity(relations, identity))
  {
    var pairings: Pairings := map[];
    var maxGeneration, maxAttempt, stale := 0, 0, false;
    for n := 0 to |relations|
      invariant forall i | 0 <= i < n :: RelationAccepted(relations[i], aggregate)
      invariant NoDuplicates(relations[..n])
      invariant pairings == PairingsOf(relations[..n], now)
      invariant maxGeneration == MaxGeneration(relations[..n])
      invariant maxAttempt == MaxAttempt(relations[..n])
      invariant stale == !SameIdentity(relations[..n], identity)
    {
      var relation := relations[n];
      if !RelationAccepted(relation, aggregate) {
        return Err(Corrupt);
      }
      PairingsOfLookup(relations[..n], now);
      assert relations[..n + 1][..n] == relations[..n];
      if relation.peer in pairings {
        assert Mentions(relations[..n], relation.peer);
        return Err(Corrupt);
      }
      ghost var grown := relations[..n + 1];
      forall i, j | 0 <= i < j < |grown| ensures grown[i].peer != grown[j].peer {
        assert j == n ==> !Mentions(relations[..n], relation.peer);
      }
      stale := stale || relation.localIdentity != identity;
      pairings := pairings[relation.peer := FromRelation(relation, now)];
      maxGeneration := Max(maxGeneration, relation.generation);
      maxAttempt := Max(maxAttempt, relation.lastAttempt);
    }
    assert relations[..|relations|] == relations;
    return Ok(Folded(pairings, maxGeneration, maxAttempt, stale));
  }

  /** Restore persistent relations, or commit an empty replacement when the identity changed. */
  method RestorePairingAuthority(store: FileAuthorityStore<seq<Relation>>, identity: nat, now: nat, load: Fault, faults: Faults)
    returns (result: Result<Restored, StoreError>)
    modifies store
    ensures (store.State(), result) == Restore(old(store.State()), identity, now, load, faults)
  {
    if identity == 0 {
      return Err(Invalid);
    }
    var loaded := store.Load(load);
    if loaded.Err? {
      return Err(loaded.error);
    }
    if loaded.value.None? {
      return Ok(Restored(map[], 0, 1, 0));
    }
    var record := loaded.value.value;
    if record.generation == 0 {
      return Err(Corrupt);
    }
    if |record.payload| > MAX_PAIRING_RECORDS {
      return Err(Corrupt);
    }
    if record.payload == [] {
      return Ok(Restored(map[], record.revision, 1, record.generation));
    }
    var folded := CollectRelations(record.payload, record.generation, identity, now);
    if folded.Err? {
      return Err(folded.error);
    }
    if folded.value.maxGeneration != record.generation {
      return Err(Corrupt);
    }
    if folded.value.stale {
      var empty := CheckedAdd(record.generation, 1);
      if empty.None? {
        return Err(Unknown);
      }
      var replaced := store.Commit(empty.value, [], record.revision, faults);
      if replaced.Err? {
        return Err(replaced.error);
      }
      return Ok(Restored(map[], replaced.value, 1, empty.value));
    }
    var next := CheckedAdd(folded.value.maxAttempt, 1);
    if next.None? {
      return Err(Unknown);
    }
    return Ok(Restored(folded.value.pairings, record.revision, next.value, record.generation));
  }

  /** Advance the process epoch before any connection is accepted. */
  method InstallRuntimeFence(store: FileAuthorityStore<nat>, load: Fault, faults: Faults) returns (epoch: Option<nat>)
    modifies store
    ensures (store.State(), epoch) == InstallFence(old(store.State()), load, faults)
  {
    var current := store.Load(load);
    if current.Err? {
      return None;
    }
    var revision, previous := 0, 0;
    if current.value.Some? {
      var record := current.value.value;
      if record.generation == 0 || record.payload != record.generation {
        return None;
      }
      revision, previous := record.revision, record.generation;
    }
    var next := CheckedAdd(previous, 1);
    if next.None? {
      return None;
    }
    var committed := store.Commit(next.value, next.value, revision, faults);
    return if committed.Ok? then Some(next.value) else None;
  }

  class IrohRelayState {
    const store: FileAuthorityStore?<seq<Relation>>
    const maxConnections: nat
    const localIdentity: nat
    const epoch: nat
    var pairings: Pairings
    var active: map<Peer, nat>
    var leases: set<Lease>
    var shutdown: bool
    var nextAttempt: nat
    var nextGeneration: nat
    var revision: nat
    var aggregate: nat

    ghost function Model(): Relay
      reads this
    {
      Relay(store != null, maxConnections, localIdentity, epoch, pairings, active, leases, shutdown,
            nextAttempt, nextGeneration, revision, aggregate)
    }

    ghost function File(): AuthorityFile
      reads this, store
    {
      if store == null then FileState(None, false) else store.State()
    }

    constructor (store: FileAuthorityStore?<seq<Relation>>, maxConnections: nat, identity: nat, epoch: nat, restored: Restored)
      ensures this.store == store
      ensures Model() == StartRelay(store != null, maxConnections, identity, epoch, restored)
    {
      this.store := store;
      this.maxConnections, localIdentity, this.epoch := maxConnections, identity, epoch;
      pairings, active, leases, shutdown := restored.pairings, map[], {}, false;
      nextAttempt, nextGeneration := restored.nextAttempt, 1;
      revision, aggregate := restored.revision, restored.aggregate;
    }

    function MaxPairingRecords(): nat {
      if maxConnections < MAX_PAIRING_RECORDS then maxConnections else MAX_PAIRING_RECORDS
    }

    /** Makes sure the peer has a record, allocating bounded metadata for a new one. */
    method ObservePeer(peer: Peer, now: nat, stamp: Option<nat>) returns (known: bool)
      modifies this`pairings, this`nextAttempt
      ensures (Model(), known) == Observe(old(Model()), peer, now, stamp)
    {
      if peer in pairings {
        return true;
      }
      if |pairings| >= MaxPairingRecords() {
        return false;
      }
      var lastAttempt := nextAttempt;
      if lastAttempt >= U64_MAX {
        return false;
      }
      nextAttempt := nextAttempt + 1;
      if stamp.None? {
        return false;
      }
      pairings := pairings[peer := PairingRecord(1, localIdentity, 1, false, false, Max(1, stamp.value), lastAttempt, 0, now, 0)];
      return true;
    }

    method ReservePairingChallenge(peer: Peer, now: nat, stamp: Option<nat>) returns (reserved: bool)
      modifies this`pairings, this`nextAttempt
      ensures (Model(), reserved) == ReserveChallenge(old(Model()), peer, now, stamp)
    {
      var known := ObservePeer(peer, now, stamp);
      if !known {
        return false;
      }
      var record := pairings[peer];
      if record.paired {
        return false;
      }
      if SaturatingSub(now, record.windowStarted) >= PAIRING_CHALLENGE_WINDOW {
        record := record.(windowStarted := now, challengeCount := 0);
      }
      if record.challengeCount >= MAX_PAIRING_CHALLENGES_PER_WINDOW {
        pairings := pairings[peer := record];
        return false;
      }
      record := record.(challengeCount := record.challengeCount + 1);
      record := record.(failedAttempts := 0);
      pairings := pairings[peer := record];
      return true;
    }

    method RecordPairingFailure(peer: Peer, now: nat, stamp: Option<nat>) returns (mayContinue: bool)
      modifies this`pairings, this`nextAttempt
      ensures (Model(), mayContinue) == RecordFailure(old(Model()), peer, now, stamp)
    {
      var known := ObservePeer(peer, now, stamp);
      if !known {
        return false;
      }
      var record := pairings[peer];
      if record.failedAttempts >= MAX_PAIRING_ATTEMPTS {
        return false;
      }
      record := record.(failedAttempts := record.failedAttempts + 1);
      pairings := pairings[peer := record];
      return record.failedAttempts < MAX_PAIRING_ATTEMPTS;
    }

    /** Persist a complete relation replacement; the aggregate follows only a reported commit. */
    method Commit(candidate: Pairings, faults: Faults) returns (result: Result<nat, StoreError>)
      modifies this`aggregate, store
      ensures var (file, committed) := CommitPairings(old(Model()), old(File()), candidate, faults);
        && File() == file
        && Model() == old(Model()).(aggregate := if committed.Ok? then committed.value.generation else old(aggregate))
        && result == match committed { case Ok(c) => Ok(c.revision) case Err(e) => Err(e) }
    {
      var encoded := EncodePairingAuthority(candidate);
      if encoded.Err? {
        return Err(encoded.error);
      }
      var generation;
      if candidate == map[] {
        generation := Max(1, aggregate);
      } else {
        if encoded.value.generation < aggregate {
          return Err(Corrupt);
        }
        generation := encoded.value.generation;
      }
      if store != null {
        result := store.Commit(generation, encoded.value.relations, revision, faults);
        if result.Err? {
          return;
        }
      } else {
        result := Ok(revision);
      }
      aggregate := generation;
    }

    /** The replacement map takes effect in memory only once it is committed. */
    method Adopt(candidate: Pairings, faults: Faults) returns (result: Result<(), StoreError>)
      modifies this`pairings, this`revision, this`aggregate, store
      ensures var (file, committed) := CommitPairings(old(Model()), old(File()), candidate, faults);
        && File() == file
        && (if committed.Ok? then result == Ok(()) && Model() == Adopted(old(Model()), candidate, committed.value)
            else result == Err(committed.error) && Model() == old(Model()))
    {
      var committed := Commit(candidate, faults);
      if committed.Err? {
        return Err(committed.error);
      }
      pairings := candidate;
      revision := committed.value;
      return Ok(());
    }

    method TryPair(peer: Peer, current: PairingRecord, generation: nat, stamp: nat, faults: Faults)
      returns (result: Result<(), StoreError>)
      requires generation == BaseGeneration(Model(), current) + 1
      modifies this`pairings, this`nextAttempt, this`revision, this`aggregate, store
      ensures var counted := Counted(old(Model()));
        var candidate := old(pairings)[peer := PairedRecord(old(Model()), current, stamp)];
        var (file, committed) := CommitPairings(counted, old(File()), candidate, faults);
        && File() == file
        && (if committed.Ok? then result == Ok(()) && Model() == Adopted(counted, candidate, committed.value)
            else result == Err(committed.error) && Model() == counted)
    {
      var record := current.(generation := Max(1, generation), localIdentity := localIdentity);
      record := record.(peerIdentity := Max(1, record.peerIdentity), updatedAt := Max(1, stamp));
      record := record.(lastAttempt := nextAttempt);
      nextAttempt := nextAttempt + 1;
      record := record.(paired := true, revoked := false, failedAttempts := 0);
      assert record == PairedRecord(old(Model()), current, stamp);
      result := Adopt(pairings[peer := record], faults);
    }

    /** Marks a peer paired after its replacement map is committed. */
    method MarkPaired(peer: Peer, now: nat, stamp: Option<nat>, faults: Faults) returns (result: Result<bool, StoreError>)
      modifies this`pairings, this`nextAttempt, this`revision, this`aggregate, store
      ensures (Model(), File(), result) == PairingAuthority.MarkPaired(old(Model()), old(File()), peer, now, stamp, faults)
    {
      if peer !in pairings && |pairings| >= MaxPairingRecords() {
        return Ok(false);
      }
      var record := if peer in pairings then pairings[peer]
                    else PairingRecord(0, localIdentity, 1, false, false, 0, 0, 0, now, 0);
      if record.paired {
        return Ok(true);
      }
      var next := CheckedAdd(if record.generation == 0 then aggregate else record.generation, 1);
      if next.None? || stamp.None? || nextAttempt >= U64_MAX {
        return Err(Unknown);
      }
      MarkPairedCases(Model(), File(), peer, now, stamp, faults);
      var update := TryPair(peer, record, next.value, stamp.value, faults);
      return match update { case Ok(_) => Ok(true) case Err(e) => Err(e) };
    }

    /** Revokes a peer; whatever fails, the peer loses local admission. */
    method RevokePeer(peer: Peer, stamp: Option<nat>, faults: Faults) returns (result: Result<bool, StoreError>)
      modifies this`pairings, this`nextAttempt, this`revision, this`aggregate, store
      ensures (Model(), File(), result) == Revoke(old(Model()), old(File()), peer, stamp, faults)
    {
      RevokeCases(Model(), File(), peer, stamp, faults);
      if peer !in pairings {
        return Ok(false);
      }
      var current := pairings[peer];
      var wasPaired := current.paired;
      var update := Ok(());
      if !current.revoked {
        update := TryRevoke(peer, stamp, faults);
      }
      if update.Err? {
        pairings := pairings[peer := pairings[peer].(paired := false)];
        return Err(update.error);
      }
      return Ok(wasPaired);
    }

    method TryRevoke(peer: Peer, stamp: Option<nat>, faults: Faults) returns (result: Result<(), StoreError>)
      requires peer in pairings && !pairings[peer].revoked
      modifies this`pairings, this`nextAttempt, this`revision, this`aggregate, store
      ensures if !MayRevoke(old(Model()), peer, stamp) then
          result == Err(Unknown) && Model() == old(Model()) && File() == old(File())
        else
          var counted, candidate := Counted(old(Model())), RevokeCandidate(old(Model()), peer, stamp.value);
          var (file, committed) := CommitPairings(counted, old(File()), candidate, faults);
          && File() == file
          && (if committed.Ok? then result == Ok(()) && Model() == Adopted(counted, candidate, committed.value)
              else result == Err(committed.error) && Model() == counted)
    {
      var record := pairings[peer];
      var next := CheckedAdd(record.generation, 1);
      if next.None? || stamp.None? || nextAttempt >= U64_MAX {
        return Err(Unknown);
      }
      record := record.(paired := false, revoked := true);
      record := record.(generation := next.value, localIdentity := localIdentity);
      record := record.(peerIdentity := Max(1, record.peerIdentity), updatedAt := Max(1, stamp.value));
      record := record.(lastAttempt := nextAttempt, failedAttempts := 0);
      nextAttempt := nextAttempt + 1;
      assert record == RevokedRecord(old(Model()), old(pairings)[peer], stamp.value);
      result := Adopt(pairings[peer := record], faults);
    }

    /** Gives the peer a lease with a fresh generation, unless it holds one or the Relay is full or shut down. */
    method TryAdmit(peer: Peer) returns (lease: Option<Lease>)
      modifies this`active, this`leases, this`nextGeneration
      ensures (Model(), lease) == Admit(old(Model()), peer)
    {
      if shutdown {
        return None;
      }
      if |leases| >= maxConnections {
        return None;
      }
      var local := nextGeneration;
      nextGeneration := (nextGeneration + 1) % TWO_POW_64;
      var generation := CheckedAdd((epoch * TWO_POW_32) % TWO_POW_64, local);
      if generation.None? {
        return None;
      }
      if peer in active {
        return None;
      }
      active := active[peer := generation.value];
      leases := leases + {Lease(peer, generation.value)};
      return Some(Lease(peer, generation.value));
    }

    /** The drop of a lease: its own active entry, and the challenge record of a peer never paired. */
    method Drop(lease: Lease)
      modifies this`active, this`leases, this`pairings
      ensures Model() == DropLease(old(Model()), lease)
    {
      if lease !in leases {
        return;
      }
      var isCurrent := lease.peer in active && active[lease.peer] == lease.generation;
      if isCurrent {
        active := active - {lease.peer};
        if lease.peer in pairings && !pairings[lease.peer].paired && !pairings[lease.peer].revoked {
          pairings := pairings - {lease.peer};
        }
      }
      leases := leases - {lease};
    }

    method BeginShutdown()
      modifies this`shutdown
      ensures Model() == old(Model()).(shutdown := true)
    {
      shutdown := true;
    }
  }
}
