/**
 * The Relay's pairing authority (src/iroh_endpoint.rs): pairings and leases in memory, committed as
 * whole-map replacements and restored at start, as functions of the state before each operation.
 */
module PairingAuthority {
  import opened Common
  import opened AuthorityStore

  const MAX_PAIRING_RECORDS: nat := 64
  const MAX_PAIRING_ATTEMPTS: nat := 5
  const MAX_PAIRING_CHALLENGES_PER_WINDOW: nat := 3
  const PAIRING_CHALLENGE_WINDOW: nat := 60
  const TWO_POW_32: nat := 0x1_0000_0000
  const TWO_POW_64: nat := 0x1_0000_0000_0000_0000

  /** An authenticated EndpointId: its 32 bytes as a big-endian number, which is its map order. */
  type Peer = nat

  datatype PairingRecord = PairingRecord(
    generation: nat,
    localIdentity: nat,
    peerIdentity: nat,
    paired: bool,
    revoked: bool,
    updatedAt: nat,
    lastAttempt: nat,
    failedAttempts: nat,
    windowStarted: nat,
    challengeCount: nat)

  /** One persisted relation, without transient challenge fields. */
  datatype Relation = Relation(
    peer: Peer,
    localIdentity: nat,
    peerIdentity: nat,
    generation: nat,
    revoked: bool,
    updatedAt: nat,
    lastAttempt: nat)

  type Pairings = map<Peer, PairingRecord>
  type AuthorityFile = FileState<seq<Relation>>

  // ---------------------------------------------------------------- encoding

  predicate Listed(record: PairingRecord) {
    record.paired || record.revoked
  }

  predicate Encodable(record: PairingRecord) {
    && record.generation != 0
    && record.localIdentity != 0
    && record.peerIdentity != 0
    && record.updatedAt != 0
    && record.lastAttempt != 0
  }

  function ToRelation(peer: Peer, record: PairingRecord): Relation {
    Relation(peer, record.localIdentity, record.peerIdentity, record.generation, record.revoked,
             record.updatedAt, record.lastAttempt)
  }

  function ListedPeers(pairings: Pairings): set<Peer> {
    set p | p in pairings && Listed(pairings[p])
  }

  /** The largest pairing generation of a list, zero when it is empty. */
  function MaxGeneration(relations: seq<Relation>): nat {
    if relations == [] then 0
    else Max(MaxGeneration(relations[..|relations| - 1]), relations[|relations| - 1].generation)
  }

  function MaxAttempt(relations: seq<Relation>): nat {
    if relations == [] then 0
    else Max(MaxAttempt(relations[..|relations| - 1]), relations[|relations| - 1].lastAttempt)
  }

  datatype Encoded = Encoded(relations: seq<Relation>, generation: nat)

  ghost function RelationsOf(pairings: Pairings): (r: seq<Relation>)
    ensures |r| == |ListedPeers(pairings)|
  {
    var peers := SortedKeys(ListedPeers(pairings));
    seq(|peers|, i requires 0 <= i < |peers| =>
      assert peers[i] in peers;
      ToRelation(peers[i], pairings[peers[i]]))
  }

  ghost function Encode(pairings: Pairings): Result<Encoded, StoreError> {
    if exists p | p in ListedPeers(pairings) :: !Encodable(pairings[p]) then Err(Invalid)
    else if |ListedPeers(pairings)| > MAX_PAIRING_RECORDS then Err(Invalid)
    else Ok(Encoded(RelationsOf(pairings), Max(1, MaxGeneration(RelationsOf(pairings)))))
  }

  // ---------------------------------------------------------------- restoring

  datatype Restored = Restored(pairings: Pairings, revision: nat, nextAttempt: nat, aggregate: nat)

  function FromRelation(relation: Relation, now: nat): PairingRecord {
    PairingRecord(relation.generation, relation.localIdentity, relation.peerIdentity, !relation.revoked,
                  relation.revoked, relation.updatedAt, relation.lastAttempt, 0, now, 0)
  }

  predicate RelationAccepted(relation: Relation, aggregate: nat) {
    && relation.generation != 0
    && relation.generation <= aggregate
    && relation.peerIdentity != 0
    && relation.updatedAt != 0
    && relation.lastAttempt != 0
  }

  /** The map a relation list denotes; later entries would win, but a restored list has no duplicates. */
  function PairingsOf(relations: seq<Relation>, now: nat): Pairings {
    if relations == [] then map[]
    else
      var last := relations[|relations| - 1];
      PairingsOf(relations[..|relations| - 1], now)[last.peer := FromRelation(last, now)]
  }

  predicate NoDuplicates(relations: seq<Relation>) {
    forall i, j | 0 <= i < j < |relations| :: relations[i].peer != relations[j].peer
  }

  predicate SameIdentity(relations: seq<Relation>, identity: nat) {
    forall i | 0 <= i < |relations| :: relations[i].localIdentity == identity
  }

  /** Restore after a successful load: the file afterwards and the state a new process starts with. */
  function RestoreRecord(file: AuthorityFile, record: StoredRecord<seq<Relation>>, identity: nat, now: nat, faults: Faults)
    : (AuthorityFile, Result<Restored, StoreError>)
  {
    var relations := record.payload;
    if record.generation == 0 || |relations| > MAX_PAIRING_RECORDS then (file, Err(Corrupt))
    else if relations == [] then (file, Ok(Restored(map[], record.revision, 1, record.generation)))
    else if (exists i | 0 <= i < |relations| :: !RelationAccepted(relations[i], record.generation))
            || !NoDuplicates(relations) || MaxGeneration(relations) != record.generation then
      (file, Err(Corrupt))
    else if !SameIdentity(relations, identity) then
      // A replaced Relay identity invalidates every relation before the endpoint binds.
      if record.generation >= U64_MAX then (file, Err(Unknown))
      else
        var (after, result) := CommitFile(file, record.generation + 1, [], record.revision, faults);
        (after, match result
                case Err(error) => Err(error)
                case Ok(revision) => Ok(Restored(map[], revision, 1, record.generation + 1)))
    else if MaxAttempt(relations) >= U64_MAX then (file, Err(Unknown))
    else (file, Ok(Restored(PairingsOf(relations, now), record.revision, MaxAttempt(relations) + 1, record.generation)))
  }

  function Restore(file: AuthorityFile, identity: nat, now: nat, load: Fault, faults: Faults)
    : (AuthorityFile, Result<Restored, StoreError>)
  {
    if identity == 0 then (file, Err(Invalid))
    else
      match LoadFile(file, load)
      case Err(error) => (file, Err(error))
      case Ok(None) => (file, Ok(Restored(map[], 0, 1, 0)))
      case Ok(Some(record)) => RestoreRecord(file, record, identity, now, faults)
  }

  // ---------------------------------------------------------------- the running process

  /** The reservation one admitted connection holds until it is dropped. */
  datatype Lease = Lease(peer: Peer, generation: nat)

  datatype Relay = Relay(
    durable: bool,
    maxConnections: nat,
    localIdentity: nat,
    epoch: nat,
    pairings: Pairings,
    active: map<Peer, nat>,
    leases: set<Lease>,
    shutdown: bool,
    nextAttempt: nat,
    nextGeneration: nat,
    revision: nat,
    aggregate: nat)
  {
    function MaxPairingRecords(): nat {
      if maxConnections < MAX_PAIRING_RECORDS then maxConnections else MAX_PAIRING_RECORDS
    }
  }

  function StartRelay(durable: bool, maxConnections: nat, identity: nat, epoch: nat, restored: Restored): Relay {
    Relay(durable, maxConnections, identity, epoch, restored.pairings, map[], {}, false,
          restored.nextAttempt, 1, restored.revision, restored.aggregate)
  }

  function NewRecord(r: Relay, now: nat, stamp: nat): PairingRecord {
    PairingRecord(1, r.localIdentity, 1, false, false, Max(1, stamp), r.nextAttempt, 0, now, 0)
  }

  /** Makes sure a peer has a record: `None` when the registry, the counter or the clock refuses. */
  function Observe(r: Relay, peer: Peer, now: nat, stamp: Option<nat>): (result: (Relay, bool))
    ensures result.1 ==> peer in result.0.pairings
  {
    if peer in r.pairings then (r, true)
    else if |r.pairings| >= r.MaxPairingRecords() then (r, false)
    else if r.nextAttempt >= U64_MAX then (r, false)
    else
      var counted := r.(nextAttempt := r.nextAttempt + 1);
      if stamp.None? then (counted, false)
      else (counted.(pairings := r.pairings[peer := NewRecord(r, now, stamp.value)]), true)
  }

  /** The fixed challenge window of one record: reopened when it has elapsed, then counted. */
  function TakeChallenge(record: PairingRecord, now: nat): (PairingRecord, bool) {
    var current :=
      if SaturatingSub(now, record.windowStarted) >= PAIRING_CHALLENGE_WINDOW
      then record.(windowStarted := now, challengeCount := 0)
      else record;
    if current.challengeCount >= MAX_PAIRING_CHALLENGES_PER_WINDOW then (current, false)
    else (current.(challengeCount := current.challengeCount + 1, failedAttempts := 0), true)
  }

  function ReserveChallenge(r: Relay, peer: Peer, now: nat, stamp: Option<nat>): (Relay, bool) {
    var (observed, known) := Observe(r, peer, now, stamp);
    if !known then (observed, false)
    else if observed.pairings[peer].paired then (observed, false)
    else
      var (record, reserved) := TakeChallenge(observed.pairings[peer], now);
      (observed.(pairings := observed.pairings[peer := record]), reserved)
  }

  function RecordFailure(r: Relay, peer: Peer, now: nat, stamp: Option<nat>): (Relay, bool) {
    var (observed, known) := Observe(r, peer, now, stamp);
    if !known then (observed, false)
    else
      var record := observed.pairings[peer];
      if record.failedAttempts >= MAX_PAIRING_ATTEMPTS then (observed, false)
      else
        var failed := record.(failedAttempts := record.failedAttempts + 1);
        (observed.(pairings := observed.pairings[peer := failed]), failed.failedAttempts < MAX_PAIRING_ATTEMPTS)
  }

  datatype Committed = Committed(revision: nat, generation: nat)

  /** The commit of a whole candidate map: refuses a generation below the aggregate before any I/O. */
  ghost function CommitPairings(r: Relay, file: AuthorityFile, candidate: Pairings, faults: Faults)
    : (AuthorityFile, Result<Committed, StoreError>)
  {
    match Encode(candidate)
    case Err(error) => (file, Err(error))
    case Ok(encoded) =>
      if candidate != map[] && encoded.generation < r.aggregate then (file, Err(Corrupt))
      else
        var generation := if candidate == map[] then Max(1, r.aggregate) else encoded.generation;
        if !r.durable then (file, Ok(Committed(r.revision, generation)))
        else
          var (after, result) := CommitFile(file, generation, encoded.relations, r.revision, faults);
          (after, match result
                  case Err(error) => Err(error)
                  case Ok(revision) => Ok(Committed(revision, generation)))
  }

  function BlankRecord(r: Relay, now: nat): PairingRecord {
    PairingRecord(0, r.localIdentity, 1, false, false, 0, 0, 0, now, 0)
  }

  function RecordToPair(r: Relay, peer: Peer, now: nat): PairingRecord {
    if peer in r.pairings then r.pairings[peer] else BlankRecord(r, now)
  }

  /** The generation a pairing continues: its own, or the aggregate for a peer without a record. */
  function BaseGeneration(r: Relay, record: PairingRecord): nat {
    if record.generation == 0 then r.aggregate else record.generation
  }

  function PairedRecord(r: Relay, record: PairingRecord, stamp: nat): PairingRecord {
    record.(generation := BaseGeneration(r, record) + 1,
            localIdentity := r.localIdentity,
            peerIdentity := Max(1, record.peerIdentity),
            updatedAt := Max(1, stamp),
            lastAttempt := r.nextAttempt,
            paired := true,
            revoked := false,
            failedAttempts := 0)
  }

  ghost function MarkPaired(r: Relay, file: AuthorityFile, peer: Peer, now: nat, stamp: Option<nat>, faults: Faults)
    : (Relay, AuthorityFile, Result<bool, StoreError>)
  {
    var record := RecordToPair(r, peer, now);
    if peer !in r.pairings && |r.pairings| >= r.MaxPairingRecords() then (r, file, Ok(false))
    else if record.paired then (r, file, Ok(true))
    else if BaseGeneration(r, record) >= U64_MAX || stamp.None? || r.nextAttempt >= U64_MAX then
      (r, file, Err(Unknown))
    else
      var counted := r.(nextAttempt := r.nextAttempt + 1);
      var candidate := r.pairings[peer := PairedRecord(r, record, stamp.value)];
      var (after, result) := CommitPairings(counted, file, candidate, faults);
      match result
      case Err(error) => (counted, after, Err(error))
      case Ok(committed) =>
        (counted.(pairings := candidate, revision := committed.revision, aggregate := committed.generation),
         after, Ok(true))
  }

  function RevokedRecord(r: Relay, record: PairingRecord, stamp: nat): PairingRecord {
    record.(paired := false,
            revoked := true,
            generation := record.generation + 1,
            localIdentity := r.localIdentity,
            peerIdentity := Max(1, record.peerIdentity),
            updatedAt := Max(1, stamp),
            lastAttempt := r.nextAttempt,
            failedAttempts := 0)
  }

  /** A failed or unknown revocation still loses local admission. */
  function Distrust(r: Relay, peer: Peer): Relay
    requires peer in r.pairings
  {
    r.(pairings := r.pairings[peer := r.pairings[peer].(paired := false)])
  }

  ghost function Revoke(r: Relay, file: AuthorityFile, peer: Peer, stamp: Option<nat>, faults: Faults)
    : (Relay, AuthorityFile, Result<bool, StoreError>)
  {
    if peer !in r.pairings then (r, file, Ok(false))
    else
      var record := r.pairings[peer];
      if record.revoked then (r, file, Ok(record.paired))
      else if record.generation >= U64_MAX || stamp.None? || r.nextAttempt >= U64_MAX then
        (Distrust(r, peer), file, Err(Unknown))
      else
        var counted := r.(nextAttempt := r.nextAttempt + 1);
        var candidate := r.pairings[peer := RevokedRecord(r, record, stamp.value)];
        var (after, result) := CommitPairings(counted, file, candidate, faults);
        match result
        case Err(error) => (Distrust(counted, peer), after, Err(error))
        case Ok(committed) =>
          (counted.(pairings := candidate, revision := committed.revision, aggregate := committed.generation),
           after, Ok(record.paired))
  }

  // ---------------------------------------------------------------- connection leases

  /** The left shift drops the high bits of the epoch; only the addition is checked. */
  function ConnectionGeneration(epoch: nat, local: nat): Option<nat> {
    CheckedAdd((epoch * TWO_POW_32) % TWO_POW_64, local)
  }

  function Admit(r: Relay, peer: Peer): (Relay, Option<Lease>) {
    if r.shutdown || |r.leases| >= r.maxConnections then (r, None)
    else
      var counted := r.(nextGeneration := (r.nextGeneration + 1) % TWO_POW_64);
      match ConnectionGeneration(r.epoch, r.nextGeneration)
      case None => (counted, None)
      case Some(generation) =>
        if peer in r.active then (counted, None)
        else
          var lease := Lease(peer, generation);
          (counted.(active := r.active[peer := generation], leases := r.leases + {lease}), Some(lease))
  }

  function DropLease(r: Relay, lease: Lease): Relay {
    if lease !in r.leases then r
    else
      var released := r.(leases := r.leases - {lease});
      if lease.peer in r.active && r.active[lease.peer] == lease.generation then
        released.(active := r.active - {lease.peer},
                  pairings := if lease.peer in r.pairings && !Listed(r.pairings[lease.peer])
                              then r.pairings - {lease.peer} else r.pairings)
      else released
  }

  // ---------------------------------------------------------------- the runtime fence

  /** Advances the process epoch, returned only when its commit is reported. */
  function InstallFence(file: FileState<nat>, load: Fault, faults: Faults): (FileState<nat>, Option<nat>) {
    match LoadFile(file, load)
    case Err(_) => (file, None)
    case Ok(current) =>
      if current.Some? && (current.value.generation == 0 || current.value.payload != current.value.generation) then (file, None)
      else
        var previous := GenerationOf(current);
        if previous >= U64_MAX then (file, None)
        else
          var (after, result) := CommitFile(file, previous + 1, previous + 1, RevisionOf(current), faults);
          (after, if result.Ok? then Some(previous + 1) else None)
  }

  // ---------------------------------------------------------------- whole runs

  datatype Ticket = Ticket(epoch: nat, local: nat, generation: nat)

  /** Host files, the process if one is running, and the generations admitted by durable processes. */
  datatype World = World(authority: AuthorityFile, fence: FileState<nat>, relay: Option<Relay>, tickets: seq<Ticket>)

  datatype Op =
    | Boot(durable: bool, identity: nat, maxConnections: nat, bootNow: nat, fenceLoad: Fault, fenceFaults: Faults, load: Fault, replaceFaults: Faults)
    | Reserve(peer: Peer, now: nat, stamp: Option<nat>)
    | Fail(peer: Peer, now: nat, stamp: Option<nat>)
    | Pair(peer: Peer, now: nat, stamp: Option<nat>, faults: Faults)
    | Unpair(peer: Peer, stamp: Option<nat>, faults: Faults)
    | Connect(peer: Peer)
    | Disconnect(lease: Lease)
    | Shutdown
    | Crash

  datatype Answer =
    | Nothing
    | Flag(flag: bool)
    | Outcome(result: Result<bool, StoreError>)
    | Admitted(lease: Option<Lease>)

  const EMPTY_WORLD := World(FileState(None, false), FileState(None, false), None, [])

  function StepBoot(w: World, op: Op): World
    requires op.Boot?
  {
    if !op.durable then
      if op.identity == 0 then w
      else w.(relay := Some(StartRelay(false, op.maxConnections, op.identity, 1, Restored(map[], 0, 1, 0))))
    else
      var (fence, epoch) := InstallFence(w.fence, op.fenceLoad, op.fenceFaults);
      var fenced := w.(fence := fence);
      if epoch.None? then fenced
      else
        var (authority, restored) := Restore(w.authority, op.identity, op.bootNow, op.load, op.replaceFaults);
        fenced.(authority := authority,
                relay := match restored
                         case Err(_) => None
                         case Ok(start) => Some(StartRelay(true, op.maxConnections, op.identity, epoch.value, start)))
  }

  /** One operation of the one process using the store; without a process only a boot does anything. */
  ghost function Step(w: World, op: Op): (World, Answer) {
    if op.Boot? then (if w.relay.None? then StepBoot(w, op) else w, Nothing)
    else if w.relay.None? then (w, Nothing)
    else
      var r := w.relay.value;
      match op
      case Reserve(peer, now, stamp) =>
        var (after, ok) := ReserveChallenge(r, peer, now, stamp);
        (w.(relay := Some(after)), Flag(ok))
      case Fail(peer, now, stamp) =>
        var (after, again) := RecordFailure(r, peer, now, stamp);
        (w.(relay := Some(after)), Flag(again))
      case Pair(peer, now, stamp, faults) =>
        var (after, file, result) := MarkPaired(r, w.authority, peer, now, stamp, faults);
        (w.(relay := Some(after), authority := file), Outcome(result))
      case Unpair(peer, stamp, faults) =>
        var (after, file, result) := Revoke(r, w.authority, peer, stamp, faults);
        (w.(relay := Some(after), authority := file), Outcome(result))
      case Connect(peer) =>
        var (after, lease) := Admit(r, peer);
        (w.(relay := Some(after),
            tickets := if lease.Some? && r.durable
                       then w.tickets + [Ticket(r.epoch, r.nextGeneration, lease.value.generation)]
                       else w.tickets), Admitted(lease))
      case Disconnect(lease) => (w.(relay := Some(DropLease(r, lease))), Nothing)
      case Shutdown => (w.(relay := Some(r.(shutdown := true))), Nothing)
      case Crash => (w.(relay := None), Nothing)
  }

  ghost function Run(w: World, ops: seq<Op>): World
    decreases |ops|
  {
    if ops == [] then w else Run(Step(w, ops[0]).0, ops[1..])
  }
}
