/** The durable issuance-result file and its transactions (src/issuance.rs). */
module Issuance {
  import opened Common
  import opened Bytes

  const RESULT_TTL: nat := 24 * 60 * 60
  const MAX_RECORDS: nat := 256
  const MAX_CHAIN_BYTES: nat := 48 * 1024
  const MAX_AUTHORIZATION_TTL: nat := 300
  const MAX_APP_ID_BYTES: nat := 128

  /** Authorization identifiers and digests; zero is the reserved empty value. */
  type AuthId = nat

  type Digest = nat

  datatype Key = Key(auth: AuthId, csr: Digest)

  datatype Status = Pending | Issued | Rejected

  datatype Record = Record(
    key: Key, app: Text, status: Status, expires: nat, retained: nat, chain: seq<Text>, fingerprint: Option<Digest>,
    configuration: Option<nat>, allowlist: Option<nat>, notAfter: Option<nat>, rejection: Option<nat>)

  datatype IssuanceError =
    | EmptyBinding | InvalidApp | InvalidGeneration | AuthorizationExpired | RetentionOverflow | AppMismatch | GenerationMismatch
    | BoundToAnotherCsr | ResourceLimit | ConfigurationRead | InvalidMetadata | InvalidChain | TerminallyRejected | AlreadyAttached
    | AlreadyFinalized | InvalidCode | OtherCode

  /** What may fail in one transaction: the lock, the read, the write. */
  datatype Fault = NoFault | LockFails | ReadFails | WriteFails

  datatype Begun = Created(record: Record) | Existing(record: Record)

  /** Public issuance material. */
  datatype Material = Material(chain: seq<Text>, fingerprint: Digest, allowlist: nat, notAfter: nat)

  // ---------------------------------------------------------------- validation

  predicate ValidApp(app: Text) {
    0 < |app| <= MAX_APP_ID_BYTES && forall i | 0 <= i < |app| :: 32 < app[i] < 127
  }

  predicate ValidChain(chain: seq<Text>) {
    chain != [] && (forall i | 0 <= i < |chain| :: chain[i] != []) && TotalBytes(chain) <= MAX_CHAIN_BYTES
  }

  predicate ValidStatus(r: Record) {
    match r.status
    case Pending => r.rejection.None? && (r.chain == [] || ValidChain(r.chain))
    case Issued =>
      ValidChain(r.chain) && r.fingerprint.Some? && r.configuration.Some? && r.allowlist.Some? && r.notAfter.Some? && r.rejection.None?
    case Rejected =>
      r.chain == [] && r.fingerprint.None? && r.allowlist.None? && r.notAfter.None? && r.rejection.Some? && r.rejection.value != 0
  }

  predicate ValidRecord(r: Record) {
    && r.key.auth != 0 && r.key.csr != 0 && ValidApp(r.app) && r.configuration != Some(0) && r.expires != 0 && r.retained != 0
    && ValidStatus(r)
  }

  predicate DistinctKeys(records: seq<Record>) {
    forall i, j | 0 <= i < j < |records| :: records[i].key != records[j].key
  }

  predicate ValidFile(records: seq<Record>) {
    |records| <= MAX_RECORDS && DistinctKeys(records) && forall i | 0 <= i < |records| :: ValidRecord(records[i])
  }

  // ---------------------------------------------------------------- transactions on the file

  function Prune(records: seq<Record>, now: nat): seq<Record> {
    if records == [] then []
    else
      var front, last := Prune(records[..|records| - 1], now), records[|records| - 1];
      if last.retained > now then front + [last] else front
  }

  /** The first record with this key. */
  function IndexOf(records: seq<Record>, key: Key): (i: nat)
    ensures i <= |records|
    ensures i < |records| ==> records[i].key == key
    ensures forall j | 0 <= j < i :: records[j].key != key
  {
    if records == [] then 0 else if records[0].key == key then 0 else 1 + IndexOf(records[1..], key)
  }

  function Find(records: seq<Record>, key: Key): Option<Record> {
    var i := IndexOf(records, key);
    if i < |records| then Some(records[i]) else None
  }

  predicate MentionsAuth(records: seq<Record>, auth: AuthId) {
    exists i :: 0 <= i < |records| && records[i].key.auth == auth
  }

  /** What the transaction loads, or why it cannot. */
  function Load(file: seq<Record>, fault: Fault): Result<seq<Record>, IssuanceError> {
    if fault == LockFails || fault == ReadFails || !ValidFile(file) then Err(ConfigurationRead) else Ok(file)
  }

  function Persist(file: seq<Record>, records: seq<Record>, fault: Fault): (seq<Record>, bool) {
    if fault == WriteFails then (file, false) else (records, true)
  }

  /** Load, prune, and write back only when something was pruned. */
  function Query(file: seq<Record>, now: nat, fault: Fault): (seq<Record>, Result<seq<Record>, IssuanceError>) {
    match Load(file, fault)
    case Err(error) => (file, Err(error))
    case Ok(records) =>
      var pruned := Prune(records, now);
      if pruned == records then (file, Ok(pruned))
      else
        var (after, ok) := Persist(file, pruned, fault);
        (after, if ok then Ok(pruned) else Err(ConfigurationRead))
  }

  function Reconcile(file: seq<Record>, key: Key, now: nat, fault: Fault): (seq<Record>, Result<Option<Record>, IssuanceError>) {
    var (after, queried) := Query(file, now, fault);
    (after, match queried case Err(error) => Err(error) case Ok(records) => Ok(Find(records, key)))
  }

  function NewRecord(key: Key, app: Text, configuration: nat, expires: nat): Record {
    Record(key, app, Pending, expires, expires + RESULT_TTL, [], None, Some(configuration), None, None, None)
  }

  function BeginRefusal(key: Key, app: Text, configuration: nat, expires: nat, now: nat): Option<IssuanceError> {
    if key.auth == 0 || key.csr == 0 then Some(EmptyBinding)
    else if !ValidApp(app) then Some(InvalidApp)
    else if configuration == 0 then Some(InvalidGeneration)
    else if expires <= now || expires - now > MAX_AUTHORIZATION_TTL then Some(AuthorizationExpired)
    else if expires + RESULT_TTL > U64_MAX then Some(RetentionOverflow)
    else None
  }

  function Resume(file: seq<Record>, pruned: seq<Record>, existing: Record, app: Text, configuration: nat, fault: Fault)
    : (seq<Record>, Result<Begun, IssuanceError>)
  {
    if existing.app != app then (file, Err(AppMismatch))
    else if existing.configuration != Some(configuration) then (file, Err(GenerationMismatch))
    else if pruned == file then (file, Ok(Existing(existing)))
    else
      var (after, ok) := Persist(file, pruned, fault);
      (after, if ok then Ok(Existing(existing)) else Err(ConfigurationRead))
  }

  function BeginPending(file: seq<Record>, key: Key, app: Text, configuration: nat, expires: nat, now: nat, fault: Fault)
    : (seq<Record>, Result<Begun, IssuanceError>)
  {
    match BeginRefusal(key, app, configuration, expires, now)
    case Some(error) => (file, Err(error))
    case None =>
      match Load(file, fault)
      case Err(error) => (file, Err(error))
      case Ok(records) =>
        var pruned := Prune(records, now);
        match Find(pruned, key)
        case Some(existing) => Resume(file, pruned, existing, app, configuration, fault)
        case None =>
          if MentionsAuth(pruned, key.auth) then (file, Err(BoundToAnotherCsr))
          else if |pruned| >= MAX_RECORDS then (file, Err(ResourceLimit))
          else
            var record := NewRecord(key, app, configuration, expires);
            var (after, ok) := Persist(file, pruned + [record], fault);
            (after, if ok then Ok(Created(record)) else Err(ConfigurationRead))
  }

  /** A change to one record: refused, already done, or applied. */
  datatype Change = Refuse(error: IssuanceError) | Keep | Apply(record: Record)

  function SameMaterial(r: Record, m: Material): bool {
    r.chain == m.chain && r.fingerprint == Some(m.fingerprint) && r.allowlist == Some(m.allowlist) && r.notAfter == Some(m.notAfter)
  }

  function WithMaterial(r: Record, m: Material): Record {
    r.(chain := m.chain, fingerprint := Some(m.fingerprint), allowlist := Some(m.allowlist), notAfter := Some(m.notAfter), rejection := None)
  }

  function Attachment(r: Record, m: Material): Change {
    if r.status == Rejected then Refuse(TerminallyRejected)
    else if r.chain != [] then (if SameMaterial(r, m) then Keep else Refuse(AlreadyAttached))
    else Apply(WithMaterial(r, m))
  }

  /** A material attached earlier is not compared with the issued one. */
  function Finalization(r: Record, m: Material, now: nat): Change {
    if r.status == Rejected then Refuse(TerminallyRejected)
    else if r.status == Issued then (if SameMaterial(r, m) then Keep else Refuse(AlreadyFinalized))
    else if now + RESULT_TTL > U64_MAX then Refuse(RetentionOverflow)
    else Apply(WithMaterial(r, m).(status := Issued, retained := now + RESULT_TTL))
  }

  function Rejection(r: Record, code: nat, now: nat): Change {
    if r.status == Issued then Keep
    else if r.status == Rejected then (if r.rejection == Some(code) then Keep else Refuse(OtherCode))
    else if now + RESULT_TTL > U64_MAX then Refuse(RetentionOverflow)
    else
      Apply(r.(status := Rejected, chain := [], fingerprint := None, allowlist := None, notAfter := None,
               rejection := Some(code), retained := now + RESULT_TTL))
  }

  datatype Edit = Attach(material: Material) | MarkIssued(material: Material) | MarkRejected(code: nat)

  function ChainRefusal(chain: seq<Text>): Option<IssuanceError> {
    if chain == [] || (exists i :: 0 <= i < |chain| && chain[i] == []) then Some(InvalidChain)
    else if TotalBytes(chain) > MAX_CHAIN_BYTES then Some(ResourceLimit)
    else None
  }

  function MaterialRefusal(m: Material): Option<IssuanceError> {
    if m.fingerprint == 0 || m.allowlist == 0 || m.notAfter == 0 then Some(InvalidMetadata) else ChainRefusal(m.chain)
  }

  function EditRefusal(edit: Edit): Option<IssuanceError> {
    match edit
    case MarkRejected(code) => if code == 0 then Some(InvalidCode) else None
    case Attach(m) => MaterialRefusal(m)
    case MarkIssued(m) => MaterialRefusal(m)
  }

  function ChangeOf(r: Record, edit: Edit, now: nat): Change {
    match edit
    case Attach(m) => Attachment(r, m)
    case MarkIssued(m) => Finalization(r, m, now)
    case MarkRejected(code) => Rejection(r, code, now)
  }

  /** Attach, finalize or reject: the pruned file is written back only with an applied change. */
  function EditRecord(file: seq<Record>, key: Key, edit: Edit, now: nat, fault: Fault): (seq<Record>, Result<Record, IssuanceError>) {
    match EditRefusal(edit)
    case Some(error) => (file, Err(error))
    case None =>
      match Load(file, fault)
      case Err(error) => (file, Err(error))
      case Ok(records) =>
        var pruned := Prune(records, now);
        var i := IndexOf(pruned, key);
        if i >= |pruned| then (file, Err(ConfigurationRead))
        else
          match ChangeOf(pruned[i], edit, now)
          case Refuse(error) => (file, Err(error))
          case Keep => (file, Ok(pruned[i]))
          case Apply(record) =>
            var (after, ok) := Persist(file, pruned[i := record], fault);
            (after, if ok then Ok(record) else Err(ConfigurationRead))
  }
}
