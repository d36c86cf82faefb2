/** The production bootstrap runtime (src/bootstrap_runtime.rs): one session, one state file, one workspace. */
module BootstrapRuntime {
  import opened Common
  import opened Bytes
  import opened Sessions
  import opened StartLimiter

  const MAX_ACTIVE_BOOTSTRAPS: nat := 8
  const MAX_APPROVALS: nat := 256
  const CODE_TTL: nat := 300
  const HARD_LIFETIME: nat := 330
  const RECOVERY_TTL: nat := 24 * 60 * 60
  const MAX_CODE_FAILURES: nat := 5
  const MAX_FAILURE_COUNT: nat := 255
  const MAX_STATE_BYTES: nat := 256 * 1024
  const MAX_READABLE_BYTES: nat := 64 * 1024
  const MAX_WORKSPACE_ID_BYTES: nat := 128
  const MAX_CHAIN_BYTES: nat := 46 * 1024
  const MAX_CHAIN_CERTIFICATES: nat := 8

  /** Minted identifiers never repeat; each is named by a counter starting at 1. */
  type Id = nat

  /** Digests; zero is the reserved invalid value. */
  type Digest = nat

  type Code = nat

  type WorkspaceId = Text

  datatype RuntimeError =
    | InvalidField | AuthorityMismatch | WorkspaceUnavailable | CapacityExhausted | PeerRateLimited | AlreadyActive
    | Expired | CodeMismatch | CodeRateLimited | NotFound | PersistenceFailed

  predicate ValidChain(chain: seq<Text>) {
    0 < |chain| <= MAX_CHAIN_CERTIFICATES && TotalBytes(chain) <= MAX_CHAIN_BYTES
  }

  datatype RawCertificate = RawCertificate(identity: Digest, chain: seq<Text>, notAfter: nat)

  /** What the certificate issuer returns: a bounded chain and an expiry that is not zero. */
  type Certificate = c: RawCertificate | ValidChain(c.chain) && c.notAfter != 0
    witness RawCertificate(1, [[0]], 1)

  datatype Attempt = Attempt(
    peer: Peer, approval: Id, challenge: Id, code: Code, appCsr: Digest, coreBinding: Digest, session: Session,
    generation: nat, workspace: WorkspaceId, expires: nat, hardExpires: nat, failures: nat)

  datatype Material = Material(approval: Id, coreIdentity: Digest, chain: seq<Text>, notAfter: nat)

  datatype CoreApproval = CoreApproval(
    coreIdentity: Digest, appCsr: Digest, coreBinding: Digest, session: Session, generation: nat, confirmed: bool,
    recoveryExpires: nat, issued: Material)

  datatype AppApproval = AppApproval(
    coreIdentity: Digest, appCsr: Digest, coreBinding: Digest, session: Session, generation: nat, challenge: Id,
    code: Code, workspace: WorkspaceId, expires: nat, failures: nat)

  datatype Orphan = Orphan(session: Session, workspace: WorkspaceId)

  datatype State = State(
    attempts: map<Id, Attempt>,
    core: map<Id, CoreApproval>,
    app: map<Id, AppApproval>,
    active: set<Session>,
    starts: Starts,
    orphans: seq<Orphan>)

  const NEW_STATE := State(map[], map[], map[], {}, map[], [])

  // ---------------------------------------------------------------- the state file

  datatype Kind = PendingBootstrap | PendingApp | CoreIssued

  datatype StateRecord = StateRecord(
    kind: Kind, approval: Id, bootstrap: Option<Id>, coreIdentity: Option<Digest>, appCsr: Digest, coreBinding: Digest,
    session: Session, generation: nat, confirmed: bool, workspace: Option<WorkspaceId>, expires: nat,
    hardExpires: Option<nat>, chain: Option<seq<Text>>, notAfter: Option<nat>)

  /** One state file: its records and its serialized size. */
  datatype Image = Image(records: seq<StateRecord>, size: nat)

  function AttemptRecord(id: Id, a: Attempt): StateRecord {
    StateRecord(PendingBootstrap, a.approval, Some(id), None, a.appCsr, a.coreBinding, a.session, a.generation, false,
           Some(a.workspace), a.expires, Some(a.hardExpires), None, None)
  }

  function AppRecord(id: Id, a: AppApproval): StateRecord {
    StateRecord(PendingApp, id, None, Some(a.coreIdentity), a.appCsr, a.coreBinding, a.session, a.generation, false,
           Some(a.workspace), a.expires, None, None, None)
  }

  function CoreRecord(a: CoreApproval): StateRecord {
    StateRecord(CoreIssued, a.issued.approval, None, Some(a.coreIdentity), a.appCsr, a.coreBinding, a.session, a.generation,
           a.confirmed, None, a.recoveryExpires, None, Some(a.issued.chain), Some(a.issued.notAfter))
  }

  ghost function AttemptRecords(attempts: map<Id, Attempt>): (r: seq<StateRecord>)
    ensures |r| == |attempts.Keys|
  {
    var ids := SortedKeys(attempts.Keys);
    seq(|ids|, i requires 0 <= i < |ids| => assert ids[i] in ids; AttemptRecord(ids[i], attempts[ids[i]]))
  }

  ghost function AppRecords(app: map<Id, AppApproval>): (r: seq<StateRecord>)
    ensures |r| == |app.Keys|
  {
    var ids := SortedKeys(app.Keys);
    seq(|ids|, i requires 0 <= i < |ids| => assert ids[i] in ids; AppRecord(ids[i], app[ids[i]]))
  }

  ghost function CoreRecords(core: map<Id, CoreApproval>): (r: seq<StateRecord>)
    ensures |r| == |core.Keys|
  {
    var ids := SortedKeys(core.Keys);
    seq(|ids|, i requires 0 <= i < |ids| => assert ids[i] in ids; CoreRecord(core[ids[i]]))
  }

  /** Everything but the orphans is written. */
  ghost function Records(s: State): seq<StateRecord> {
    AttemptRecords(s.attempts) + AppRecords(s.app) + CoreRecords(s.core)
  }

  predicate ValidWorkspace(w: WorkspaceId) {
    0 < |w| <= MAX_WORKSPACE_ID_BYTES
  }

  predicate ValidRecord(r: StateRecord) {
    && r.approval != 0 && r.appCsr != 0 && r.coreBinding != 0 && ValidSession(r.session) && r.generation != 0
    && match r.kind
       case PendingBootstrap =>
         r.bootstrap.Some? && r.workspace.Some? && ValidWorkspace(r.workspace.value) && r.hardExpires.Some? && r.chain.None?
       case PendingApp =>
         r.coreIdentity.Some? && r.workspace.Some? && ValidWorkspace(r.workspace.value) && r.chain.None?
       case CoreIssued =>
         && r.coreIdentity.Some? && r.workspace.None? && r.chain.Some? && ValidChain(r.chain.value)
         && r.notAfter.Some? && r.notAfter.value != 0
         && (r.confirmed <==> r.expires == 0)
  }

  /** Failures of one persist, and the size its records would serialize to. */
  datatype PersistFault = PersistFault(fails: bool, size: nat)

  ghost function Persist(s: State, file: Option<Image>, fault: PersistFault): (Option<Image>, bool) {
    if fault.fails || |Records(s)| > MAX_APPROVALS || fault.size > MAX_STATE_BYTES then (file, false)
    else if s.attempts == map[] && s.app == map[] && s.core == map[] then (None, true)
    else (Some(Image(Records(s), fault.size)), true)
  }

  function RestoredApproval(r: StateRecord): CoreApproval
    requires r.kind.CoreIssued? && ValidRecord(r)
  {
    CoreApproval(r.coreIdentity.value, r.appCsr, r.coreBinding, r.session, r.generation, r.confirmed, r.expires,
                 Material(r.approval, r.coreIdentity.value, r.chain.value, r.notAfter.value))
  }

  predicate AllValid(records: seq<StateRecord>) {
    forall i | 0 <= i < |records| :: ValidRecord(records[i])
  }

  function RestoredCore(records: seq<StateRecord>): map<Id, CoreApproval>
    requires AllValid(records)
  {
    if records == [] then map[]
    else
      var front, last := RestoredCore(records[..|records| - 1]), records[|records| - 1];
      if last.kind.CoreIssued? then front[last.approval := RestoredApproval(last)] else front
  }

  function RestoredOrphans(records: seq<StateRecord>): seq<Orphan>
    requires AllValid(records)
  {
    if records == [] then []
    else
      var front, last := RestoredOrphans(records[..|records| - 1]), records[|records| - 1];
      if last.kind.CoreIssued? then front else front + [Orphan(last.session, last.workspace.value)]
  }

  predicate Readable(image: Image) {
    image.size <= MAX_READABLE_BYTES && |image.records| <= MAX_APPROVALS && AllValid(image.records)
  }

  /** Pending work becomes orphaned workspaces; issued approvals are kept. */
  function Restore(file: Option<Image>, readFails: bool): Option<State> {
    if file.None? then Some(NEW_STATE)
    else if readFails || !Readable(file.value) then None
    else Some(NEW_STATE.(core := RestoredCore(file.value.records), orphans := RestoredOrphans(file.value.records)))
  }

  // ---------------------------------------------------------------- the process and its host

  /**
   * One running process with its state file. `owned` are the workspaces returned by a creation in this
   * process and not closed since; `leaked` those whose best-effort rollback close failed; `kept` the
   * approvals whose confirmation was persisted before it was reported.
   */
  datatype Machine = Machine(
    session: Session, state: State, file: Option<Image>, owned: set<WorkspaceId>, leaked: set<WorkspaceId>, nextId: Id,
    kept: map<Id, CoreApproval>)

  /** Workspace closes that fail in one call, and the faults of its (at most two) persists. */
  datatype Faults = Faults(closes: set<WorkspaceId>, sweepPersist: PersistFault, persist: PersistFault)

  datatype Creation = Created(workspace: WorkspaceId, verified: bool) | CreationFails(error: RuntimeError)

  /** A missing workspace counts as closed. */
  predicate CloseSucceeds(w: WorkspaceId, fails: set<WorkspaceId>) {
    ValidWorkspace(w) && w !in fails
  }

  function Forget(m: Machine, w: WorkspaceId): Machine {
    m.(owned := m.owned - {w}, leaked := m.leaked - {w})
  }

  ghost function PersistMachine(m: Machine, fault: PersistFault): (Machine, bool) {
    var (file, ok) := Persist(m.state, m.file, fault);
    (m.(file := file), ok)
  }

  // ---------------------------------------------------------------- sweeping

  predicate CoreExpired(a: CoreApproval, now: nat) {
    !a.confirmed && a.recoveryExpires != 0 && now > a.recoveryExpires
  }

  function LiveCore(core: map<Id, CoreApproval>, now: nat): map<Id, CoreApproval> {
    map id | id in core && !CoreExpired(core[id], now) :: core[id]
  }

  function LateAttempts(s: State, now: nat): set<Id> {
    set id | id in s.attempts && now > s.attempts[id].hardExpires
  }

  function LateApp(s: State, now: nat): set<Id> {
    set id | id in s.app && now > s.app[id].expires
  }

  ghost function ReapedAttempts(s: State, now: nat): seq<Orphan> {
    var ids := SortedKeys(LateAttempts(s, now));
    seq(|ids|, i requires 0 <= i < |ids| => assert ids[i] in ids; Orphan(s.attempts[ids[i]].session, s.attempts[ids[i]].workspace))
  }

  ghost function ReapedApp(s: State, now: nat): seq<Orphan> {
    var ids := SortedKeys(LateApp(s, now));
    seq(|ids|, i requires 0 <= i < |ids| => assert ids[i] in ids; Orphan(s.app[ids[i]].session, s.app[ids[i]].workspace))
  }

  ghost function ReapedWorkspaces(s: State, now: nat): seq<Orphan> {
    ReapedAttempts(s, now) + ReapedApp(s, now)
  }

  function AttemptSessions(m: map<Id, Attempt>, ids: set<Id>): set<Session> {
    set id | id in ids && id in m :: m[id].session
  }

  function AppSessions(m: map<Id, AppApproval>, ids: set<Id>): set<Session> {
    set id | id in ids && id in m :: m[id].session
  }

  function LateSessions(s: State, now: nat): set<Session> {
    AttemptSessions(s.attempts, LateAttempts(s, now)) + AppSessions(s.app, LateApp(s, now))
  }

  function Reaped(s: State, now: nat): State {
    s.(attempts := s.attempts - LateAttempts(s, now), app := s.app - LateApp(s, now), active := s.active - LateSessions(s, now))
  }

  /** How many of the listed workspaces are closed before the first close that fails. */
  function ClosedPrefix(list: seq<Orphan>, fails: set<WorkspaceId>): (n: nat)
    ensures n <= |list|
    ensures n < |list| ==> !CloseSucceeds(list[n].workspace, fails)
    ensures forall i | 0 <= i < n :: CloseSucceeds(list[i].workspace, fails)
  {
    if list == [] || !CloseSucceeds(list[0].workspace, fails) then 0 else 1 + ClosedPrefix(list[1..], fails)
  }

  function WorkspacesOf(list: seq<Orphan>): set<WorkspaceId> {
    set o | o in list :: o.workspace
  }

  function ForgetAll(m: Machine, list: seq<Orphan>): Machine {
    m.(owned := m.owned - WorkspacesOf(list), leaked := m.leaked - WorkspacesOf(list))
  }

  /** Expired approvals and attempts leave the maps; every workspace they or earlier failures left is closed. */
  ghost function Sweep(m: Machine, now: nat, faults: Faults): (Machine, Result<(), RuntimeError>) {
    var live := m.state.(core := LiveCore(m.state.core, now));
    var due := live.orphans + ReapedWorkspaces(live, now);
    var reaped := Reaped(live, now);
    var n := ClosedPrefix(due, faults.closes);
    var closed := ForgetAll(m, due[..n]);
    if n < |due| then (closed.(state := reaped.(orphans := due)), Err(WorkspaceUnavailable))
    else
      var clean := closed.(state := reaped.(orphans := []));
      if due == [] && live.core == m.state.core then (clean, Ok(()))
      else
        var (persisted, ok) := PersistMachine(clean, faults.sweepPersist);
        (persisted, if ok then Ok(()) else Err(PersistenceFailed))
  }

  // ---------------------------------------------------------------- bootstrap attempts

  datatype Request = Request(appCsr: Digest, coreBinding: Digest, session: Session, generation: nat)

  datatype Challenge = Challenge(id: Id, challenge: Id, expires: nat)

  function StartRefusal(s: State, session: Session): Option<RuntimeError> {
    if |s.attempts| >= MAX_ACTIVE_BOOTSTRAPS || |s.core| + |s.app| >= MAX_APPROVALS then Some(CapacityExhausted)
    else if session in s.active then Some(AlreadyActive)
    else None
  }

  /** Create the hidden workspace; one that cannot be verified is closed, best effort, and never returned. */
  function Create(creation: Creation): Result<WorkspaceId, RuntimeError> {
    match creation
    case CreationFails(error) => Err(error)
    case Created(w, verified) => if ValidWorkspace(w) && verified then Ok(w) else Err(WorkspaceUnavailable)
  }

  function WithAttempt(m: Machine, id: Id, a: Attempt): Machine {
    m.(state := m.state.(attempts := m.state.attempts[id := a], active := m.state.active + {a.session}))
  }

  function WithApp(m: Machine, id: Id, a: AppApproval): Machine {
    m.(state := m.state.(app := m.state.app[id := a], active := m.state.active + {a.session}))
  }

  /** Undone, except that the workspace was created; its close is best effort. */
  function RolledBack(before: Machine, w: WorkspaceId, session: Session, fails: set<WorkspaceId>): Machine {
    var undone := before.(state := before.state.(active := before.state.active - {session}), owned := before.owned + {w});
    if CloseSucceeds(w, fails) then Forget(undone, w) else undone.(leaked := undone.leaked + {w})
  }

  /** The new state is kept only if it can be persisted. */
  ghost function KeepOrRollBack(before: Machine, after: Machine, w: WorkspaceId, session: Session, faults: Faults): (Machine, bool) {
    var (persisted, ok) := PersistMachine(after.(owned := after.owned + {w}), faults.persist);
    if ok then (persisted, true) else (RolledBack(before, w, session, faults.closes), false)
  }

  function NewAttempt(m: Machine, peer: Peer, q: Request, code: Code, now: nat, w: WorkspaceId): Attempt {
    Attempt(peer, m.nextId + 1, m.nextId + 2, code, q.appCsr, q.coreBinding, q.session, q.generation, w,
            now + CODE_TTL, now + HARD_LIFETIME, 0)
  }

  function NewApproval(m: Machine, core: Digest, q: Request, code: Code, now: nat, w: WorkspaceId): AppApproval {
    AppApproval(core, q.appCsr, q.coreBinding, q.session, q.generation, m.nextId + 1, code, w, now + CODE_TTL, 0)
  }

  ghost function HoldAttempt(m: Machine, id: Id, a: Attempt, faults: Faults): (Machine, bool) {
    KeepOrRollBack(m, WithAttempt(m, id, a), a.workspace, a.session, faults)
  }

  ghost function HoldApproval(m: Machine, id: Id, a: AppApproval, faults: Faults): (Machine, bool) {
    KeepOrRollBack(m, WithApp(m, id, a), a.workspace, a.session, faults)
  }

  ghost function OpenAttempt(m: Machine, peer: Peer, q: Request, code: Code, now: nat, creation: Creation, faults: Faults)
    : (Machine, Result<Challenge, RuntimeError>)
  {
    var minted := m.(nextId := m.nextId + 3);
    if now + HARD_LIFETIME > U64_MAX then (minted, Err(InvalidField))
    else
      match Create(creation)
      case Err(error) => (minted, Err(error))
      case Ok(w) =>
        var (held, ok) := HoldAttempt(minted, m.nextId, NewAttempt(m, peer, q, code, now, w), faults);
        (held, if ok then Ok(Challenge(m.nextId, m.nextId + 2, now + CODE_TTL)) else Err(PersistenceFailed))
  }

  /** A start on the swept machine. */
  ghost function Begin(m: Machine, peer: Peer, q: Request, code: Code, now: nat, creation: Creation, faults: Faults)
    : (Machine, Result<Challenge, RuntimeError>)
  {
    match StartRefusal(m.state, q.session)
    case Some(error) => (m, Err(error))
    case None =>
      var pruned := m.(state := m.state.(starts := Prune(m.state.starts, now)));
      if |History(pruned.state.starts, peer)| >= MAX_PEER_STARTS then (pruned, Err(PeerRateLimited))
      else
        var counted := pruned.(state := pruned.state.(starts := Record(pruned.state.starts, peer, now)));
        OpenAttempt(counted, peer, q, code, now, creation, faults)
  }

  function RequestRefusal(m: Machine, request: Option<Request>): Option<RuntimeError> {
    if request.None? then Some(InvalidField)
    else
      var q := request.value;
      if q.session != m.session || q.appCsr == 0 || q.coreBinding == 0 || q.generation == 0 then Some(AuthorityMismatch)
      else None
  }

  /** A request that cannot be decoded is `None`. */
  ghost function Start(m: Machine, peer: Peer, request: Option<Request>, code: Code, now: nat, creation: Creation, faults: Faults)
    : (Machine, Result<Challenge, RuntimeError>)
  {
    match RequestRefusal(m, request)
    case Some(error) => (m, Err(error))
    case None =>
      var (swept, result) := Sweep(m, now, faults);
      match result
      case Err(error) => (swept, Err(error))
      case Ok(_) => Begin(swept, peer, request.value, code, now, creation, faults)
  }

  /** The attempt and its session leave memory. */
  function DropAttempt(m: Machine, id: Id): Machine
    requires id in m.state.attempts
  {
    m.(state := m.state.(attempts := m.state.attempts - {id}, active := m.state.active - {m.state.attempts[id].session}))
  }

  ghost function Abort(m: Machine, id: Id, faults: Faults): (Machine, Result<(), RuntimeError>) {
    if id !in m.state.attempts then (m, Ok(()))
    else
      var a, dropped := m.state.attempts[id], DropAttempt(m, id);
      var closes := CloseSucceeds(a.workspace, faults.closes);
      var closed := if closes then Forget(dropped, a.workspace)
                    else dropped.(state := dropped.state.(orphans := dropped.state.orphans + [Orphan(a.session, a.workspace)]));
      var (persisted, ok) := PersistMachine(closed, faults.persist);
      (persisted, if !ok then Err(PersistenceFailed) else if !closes then Err(WorkspaceUnavailable) else Ok(()))
  }

  /** Close, drop, persist; a failed close changes nothing. */
  ghost function EndAttempt(m: Machine, id: Id, error: RuntimeError, faults: Faults): (Machine, RuntimeError)
    requires id in m.state.attempts
  {
    var w := m.state.attempts[id].workspace;
    if !CloseSucceeds(w, faults.closes) then (m, WorkspaceUnavailable)
    else
      var (persisted, ok) := PersistMachine(DropAttempt(Forget(m, w), id), faults.persist);
      (persisted, if ok then error else PersistenceFailed)
  }

  function Counted(failures: nat): nat {
    if failures >= MAX_FAILURE_COUNT then MAX_FAILURE_COUNT else failures + 1
  }

  ghost function CountWrongCode(m: Machine, id: Id, faults: Faults): (Machine, RuntimeError)
    requires id in m.state.attempts
  {
    var a := m.state.attempts[id].(failures := Counted(m.state.attempts[id].failures));
    var counted := m.(state := m.state.(attempts := m.state.attempts[id := a]));
    if a.failures >= MAX_CODE_FAILURES then EndAttempt(counted, id, CodeRateLimited, faults)
    else
      var (persisted, ok) := PersistMachine(counted, faults.persist);
      (persisted, if ok then CodeMismatch else PersistenceFailed)
  }

  /** The workspace is closed and the attempt dropped before anything is issued or persisted. */
  ghost function IssueFor(m: Machine, id: Id, now: nat, certificate: Option<Certificate>, faults: Faults)
    : (Machine, Result<Material, RuntimeError>)
    requires id in m.state.attempts
  {
    var a := m.state.attempts[id];
    var dropped := DropAttempt(Forget(m, a.workspace), id);
    if certificate.None? then (dropped, Err(PersistenceFailed))
    else if now + RECOVERY_TTL > U64_MAX then (dropped, Err(InvalidField))
    else
      var c := certificate.value;
      var material := Material(a.approval, c.identity, c.chain, c.notAfter);
      var approval := CoreApproval(c.identity, a.appCsr, a.coreBinding, a.session, a.generation, false, now + RECOVERY_TTL, material);
      var (persisted, ok) :=
        PersistMachine(dropped.(state := dropped.state.(core := dropped.state.core[a.approval := approval])), faults.persist);
      (persisted, if ok then Ok(material) else Err(PersistenceFailed))
  }

  function SubmitRefusal(m: Machine, peer: Peer, id: Id, challenge: Id, code: Option<Code>): Option<RuntimeError> {
    if code.None? then Some(InvalidField)
    else if id !in m.state.attempts then Some(NotFound)
    else if m.state.attempts[id].peer != peer || m.state.attempts[id].challenge != challenge then Some(AuthorityMismatch)
    else None
  }

  ghost function Submit(m: Machine, peer: Peer, id: Id, challenge: Id, code: Option<Code>, now: nat,
                        certificate: Option<Certificate>, faults: Faults)
    : (Machine, Result<Material, RuntimeError>)
  {
    match SubmitRefusal(m, peer, id, challenge, code)
    case Some(error) => (m, Err(error))
    case None =>
      var a := m.state.attempts[id];
      if now > a.expires || now > a.hardExpires then
        var (n, error) := EndAttempt(m, id, Expired, faults);
        (n, Err(error))
      else if a.code != code.value then
        var (n, error) := CountWrongCode(m, id, faults);
        (n, Err(error))
      else if !CloseSucceeds(a.workspace, faults.closes) then (m, Err(WorkspaceUnavailable))
      else IssueFor(m, id, now, certificate, faults)
  }

  // ---------------------------------------------------------------- core approvals

  ghost function Reconcile(m: Machine, approval: Id, coreBinding: Digest, session: Session, now: nat, faults: Faults)
    : (Machine, Result<Material, RuntimeError>)
  {
    var (swept, result) := Sweep(m, now, faults);
    match result
    case Err(error) => (swept, Err(error))
    case Ok(_) =>
      if approval !in swept.state.core then (swept, Err(NotFound))
      else
        var a := swept.state.core[approval];
        if a.coreBinding != coreBinding || a.session != session then (swept, Err(AuthorityMismatch))
        else (swept, Ok(a.issued))
  }

  predicate ApprovalLapsed(m: Machine, approval: Id, now: nat) {
    approval in m.state.core && !m.state.core[approval].confirmed && now > m.state.core[approval].recoveryExpires
  }

  /** An unconfirmed approval past its recovery window is removed before it can authorize anything. */
  ghost function RemoveLapsed(m: Machine, approval: Id, faults: Faults): (Machine, RuntimeError) {
    var (persisted, ok) := PersistMachine(m.(state := m.state.(core := m.state.core - {approval})), faults.persist);
    (persisted, if ok then Expired else PersistenceFailed)
  }

  ghost function AuthorizeFirstApp(m: Machine, core: Digest, approval: Id, appCsr: Digest, now: nat, faults: Faults)
    : (Machine, Result<nat, RuntimeError>)
  {
    if ApprovalLapsed(m, approval, now) then
      var (n, error) := RemoveLapsed(m, approval, faults);
      (n, Err(error))
    else if approval !in m.state.core then (m, Err(NotFound))
    else
      var a := m.state.core[approval];
      if a.confirmed || a.coreIdentity != core || a.appCsr != appCsr then (m, Err(AuthorityMismatch))
      else (m, Ok(a.generation))
  }

  function Confirmed(a: CoreApproval): CoreApproval {
    a.(confirmed := true, recoveryExpires := 0)
  }

  ghost function ConfirmFirstApp(m: Machine, core: Digest, approval: Id, appCsr: Digest, generation: nat, now: nat, faults: Faults)
    : (Machine, Result<(), RuntimeError>)
  {
    if ApprovalLapsed(m, approval, now) then
      var (n, error) := RemoveLapsed(m, approval, faults);
      (n, Err(error))
    else if approval !in m.state.core then (m, Err(NotFound))
    else
      var a := m.state.core[approval];
      if a.coreIdentity != core || a.appCsr != appCsr || a.generation != generation then (m, Err(AuthorityMismatch))
      else if a.confirmed then (m, Ok(()))
      else
        var (persisted, ok) :=
          PersistMachine(m.(state := m.state.(core := m.state.core[approval := Confirmed(a)])), faults.persist);
        if ok then (persisted.(kept := m.kept[approval := Confirmed(a)]), Ok(())) else (persisted, Err(PersistenceFailed))
  }

  // ---------------------------------------------------------------- app approvals

  predicate Approves(a: CoreApproval, core: Digest, q: Request) {
    a.coreIdentity == core && a.coreBinding == q.coreBinding && a.session == q.session && a.generation == q.generation && a.confirmed
  }

  function AppRefusal(s: State, core: Digest, q: Request): Option<RuntimeError> {
    if !exists id | id in s.core :: Approves(s.core[id], core, q) then Some(AuthorityMismatch)
    else if q.session in s.active then Some(AlreadyActive)
    else if |s.app| >= MAX_APPROVALS then Some(CapacityExhausted)
    else None
  }

  ghost function OpenApproval(m: Machine, core: Digest, q: Request, code: Code, now: nat, creation: Creation, faults: Faults)
    : (Machine, Result<Challenge, RuntimeError>)
  {
    var minted := m.(nextId := m.nextId + 2);
    if now + CODE_TTL > U64_MAX then (minted, Err(InvalidField))
    else
      match Create(creation)
      case Err(error) => (minted, Err(error))
      case Ok(w) =>
        var (held, ok) := HoldApproval(minted, m.nextId, NewApproval(m, core, q, code, now, w), faults);
        (held, if ok then Ok(Challenge(m.nextId, m.nextId + 1, now + CODE_TTL)) else Err(PersistenceFailed))
  }

  /** An app approval on the swept machine. */
  ghost function BeginApp(m: Machine, core: Digest, q: Request, code: Code, now: nat, creation: Creation, faults: Faults)
    : (Machine, Result<Challenge, RuntimeError>)
  {
    match AppRefusal(m.state, core, q)
    case Some(error) => (m, Err(error))
    case None => OpenApproval(m, core, q, code, now, creation, faults)
  }

  ghost function StartApp(m: Machine, core: Digest, q: Request, code: Code, now: nat, creation: Creation, faults: Faults)
    : (Machine, Result<Challenge, RuntimeError>)
  {
    if !ValidSession(q.session) || RequestRefusal(m, Some(q)).Some? then (m, Err(InvalidField))
    else
      var (swept, result) := Sweep(m, now, faults);
      match result
      case Err(error) => (swept, Err(error))
      case Ok(_) => BeginApp(swept, core, q, code, now, creation, faults)
  }

  function DropApp(m: Machine, id: Id): Machine
    requires id in m.state.app
  {
    m.(state := m.state.(app := m.state.app - {id}, active := m.state.active - {m.state.app[id].session}))
  }

  ghost function EndApp(m: Machine, id: Id, faults: Faults): (Machine, Option<RuntimeError>)
    requires id in m.state.app
  {
    var w := m.state.app[id].workspace;
    if !CloseSucceeds(w, faults.closes) then (m, Some(WorkspaceUnavailable))
    else
      var (persisted, ok) := PersistMachine(DropApp(Forget(m, w), id), faults.persist);
      (persisted, if ok then None else Some(PersistenceFailed))
  }

  ghost function CountWrongAppCode(m: Machine, id: Id, faults: Faults): (Machine, RuntimeError)
    requires id in m.state.app
  {
    var a := m.state.app[id].(failures := Counted(m.state.app[id].failures));
    var counted := m.(state := m.state.(app := m.state.app[id := a]));
    if a.failures >= MAX_CODE_FAILURES then
      var (n, error) := EndApp(counted, id, faults);
      (n, if error.Some? then error.value else CodeRateLimited)
    else
      var (persisted, ok) := PersistMachine(counted, faults.persist);
      (persisted, if ok then CodeMismatch else PersistenceFailed)
  }

  function SubmitAppRefusal(m: Machine, core: Digest, id: Id, challenge: Id, code: Option<Code>, csrMatches: bool, appCsr: Digest)
    : Option<RuntimeError>
  {
    if !csrMatches || code.None? then Some(InvalidField)
    else if id !in m.state.app then Some(NotFound)
    else
      var a := m.state.app[id];
      if a.coreIdentity != core || a.challenge != challenge || a.appCsr != appCsr then Some(AuthorityMismatch) else None
  }

  /** `csrMatches`: the App CSR is bounded and hashes to `appCsr`. The approval returned is the one consumed. */
  ghost function SubmitApp(m: Machine, core: Digest, id: Id, challenge: Id, code: Option<Code>, csrMatches: bool, appCsr: Digest,
                           now: nat, faults: Faults)
    : (Machine, Result<AppApproval, RuntimeError>)
  {
    match SubmitAppRefusal(m, core, id, challenge, code, csrMatches, appCsr)
    case Some(error) => (m, Err(error))
    case None =>
      var a := m.state.app[id];
      if now > a.expires then
        var (n, error) := EndApp(m, id, faults);
        (n, Err(if error.Some? then error.value else Expired))
      else if a.code != code.value then
        var (n, error) := CountWrongAppCode(m, id, faults);
        (n, Err(error))
      else
        var (n, error) := EndApp(m, id, faults);
        (n, if error.Some? then Err(error.value) else Ok(a))
  }
}
