/** The HDB1 bootstrap verifier (src/bootstrap.rs) as a function of its state, clock and faults. */
module BootstrapVerifier {
  import opened Common
  import opened Sessions
  import opened StartLimiter

  const MAX_ACTIVE_BOOTSTRAPS: nat := 8
  const MAX_RETAINED_BOOTSTRAPS: nat := 256
  const MAX_TRACKED_PEERS: nat := 256
  const CODE_TTL: nat := 300
  const HARD_LIFETIME: nat := 330
  const MAX_CODE_FAILURES: nat := 5
  const RECOVERY_TTL: nat := 24 * 60 * 60
  const CERTIFICATE_TTL: nat := 90 * 24 * 60 * 60

  /** Minted identifiers are collision-free; each is named by the counter value it was minted from. */
  type Id = nat

  type Digest = nat

  type Code = nat

  datatype VerifierError =
    | InvalidValue | InvalidSession | CapacityExhausted | PeerRateLimited | AlreadyActive | NotFound
    | AuthorityMismatch | InvalidChallenge | Expired | CodeMismatch | CodeRateLimited | WorkspaceFailure
    | CleanupPending | InvalidState | AlreadyTerminal | IssuanceFailed | Overflow

  datatype Phase = AwaitingCode | Cleaning | Issued | Rejected | Elapsed

  /** Exact Core, target, session and generation binding of one Start. */
  datatype Binding = Binding(session: Session, coreCsr: Digest, appCsr: Digest, generation: nat, coreBinding: Digest)

  /** Public metadata of one issuance; identity and chain digests are functions of these fields. */
  datatype Metadata = Metadata(approval: Id, binding: Binding, serial: nat, notAfter: nat)

  datatype Attempt = Attempt(
    binding: Binding,
    peer: Peer,
    approval: Id,
    workspace: Id,
    code: Option<Code>,
    challenge: Id,
    challengeExpires: nat,
    hardExpires: nat,
    failures: nat,
    phase: Phase,
    issued: Option<Metadata>,
    issuedAt: Option<nat>)

  datatype Verifier = Verifier(
    nextCounter: nat,
    attempts: map<Id, Attempt>,
    fences: map<Session, Id>,
    starts: Starts,
    nextWorkspace: nat,
    workspaces: map<Id, Session>,
    nextSerial: nat,
    issuedCount: nat)

  datatype Challenge = Challenge(bootstrap: Id, challenge: Id, expires: nat)

  datatype Recovery = Pending(expires: nat) | Recovered(metadata: Metadata) | Refused(code: nat)

  /** Hidden-workspace failures of one call: which closes fail, and whether create or readback fails. */
  datatype Faults = Faults(closes: set<Id>, create: bool, readback: bool)

  const NEW_VERIFIER := Verifier(1, map[], map[], map[], 1, map[], 1, 0)

  // ---------------------------------------------------------------- hidden workspaces

  predicate CloseSucceeds(v: Verifier, workspace: Id, fails: set<Id>) {
    workspace !in fails && workspace in v.workspaces
  }

  function Close(v: Verifier, workspace: Id, fails: set<Id>): Verifier {
    if CloseSucceeds(v, workspace, fails) then v.(workspaces := v.workspaces - {workspace}) else v
  }

  predicate HasSession(v: Verifier, session: Session) {
    exists w | w in v.workspaces :: v.workspaces[w] == session
  }

  // ---------------------------------------------------------------- ending attempts

  /** The attempt's new phase, and its session's fence removed whatever it points at. */
  function MarkTerminal(v: Verifier, id: Id, phase: Phase): Verifier
    requires id in v.attempts
  {
    var attempt := v.attempts[id];
    v.(attempts := v.attempts[id := attempt.(phase := phase, code := None)],
       fences := v.fences - {attempt.binding.session})
  }

  function MarkCleaning(v: Verifier, id: Id): Verifier
    requires id in v.attempts
  {
    v.(attempts := v.attempts[id := v.attempts[id].(phase := Cleaning)])
  }

  /** Close, then end the attempt; a failed close leaves it to an explicit cleanup. */
  function CloseThenEnd(v: Verifier, id: Id, phase: Phase, fails: set<Id>): (Verifier, bool)
    requires id in v.attempts
  {
    var workspace := v.attempts[id].workspace;
    if CloseSucceeds(v, workspace, fails) then (MarkTerminal(Close(v, workspace, fails), id, phase), true)
    else (MarkCleaning(v, id), false)
  }

  predicate RecoveryOver(attempt: Attempt, now: nat) {
    attempt.issuedAt.Some? && attempt.issuedAt.value + RECOVERY_TTL <= U64_MAX && now > attempt.issuedAt.value + RECOVERY_TTL
  }

  predicate Pendable(attempt: Attempt) {
    attempt.phase == AwaitingCode || attempt.phase == Cleaning
  }

  predicate Due(attempt: Attempt, now: nat) {
    (Pendable(attempt) && now > attempt.hardExpires) || (attempt.phase == Issued && RecoveryOver(attempt, now))
  }

  /** One attempt after a reap: ended, left to cleanup, or untouched. */
  function ReapedAttempt(v: Verifier, attempt: Attempt, now: nat, fails: set<Id>): Attempt {
    if !Due(attempt, now) then attempt
    else if Ends(v, attempt, now, fails) then attempt.(phase := Elapsed, code := None)
    else attempt.(phase := Cleaning)
  }

  predicate Ends(v: Verifier, attempt: Attempt, now: nat, fails: set<Id>) {
    Due(attempt, now) && (attempt.phase == Issued || CloseSucceeds(v, attempt.workspace, fails))
  }

  function EndingIds(v: Verifier, now: nat, fails: set<Id>): set<Id> {
    set id | id in v.attempts && Ends(v, v.attempts[id], now, fails)
  }

  function SessionsOf(v: Verifier, ids: set<Id>): set<Session> {
    set id | id in ids && id in v.attempts :: v.attempts[id].binding.session
  }

  function PendableWorkspacesOf(v: Verifier, ids: set<Id>): set<Id> {
    set id | id in ids && id in v.attempts && Pendable(v.attempts[id]) :: v.attempts[id].workspace
  }

  /** Every due attempt at once; the number ended is the size of `EndingIds`. */
  function Reap(v: Verifier, now: nat, fails: set<Id>): Verifier {
    if now == 0 then v
    else
      var ending := EndingIds(v, now, fails);
      v.(attempts := map id | id in v.attempts :: ReapedAttempt(v, v.attempts[id], now, fails),
         fences := v.fences - SessionsOf(v, ending),
         workspaces := v.workspaces - PendableWorkspacesOf(v, ending))
  }

  predicate Removable(attempt: Attempt, now: nat) {
    attempt.phase == Rejected || attempt.phase == Elapsed || (attempt.phase == Issued && RecoveryOver(attempt, now))
  }

  function RemovableIds(v: Verifier, now: nat): set<Id> {
    set id | id in v.attempts && Removable(v.attempts[id], now)
  }

  /** Removed attempts take along only a fence that still points at them. */
  function PruneRetained(v: Verifier, now: nat): Verifier {
    var removable := RemovableIds(v, now);
    v.(attempts := v.attempts - removable,
       fences := map s | s in v.fences && !(v.fences[s] in removable && v.attempts[v.fences[s]].binding.session == s) :: v.fences[s])
  }

  // ---------------------------------------------------------------- start

  function Refusal(v: Verifier, peer: Peer, session: Session): Option<VerifierError> {
    if peer !in v.starts && |v.starts| >= MAX_TRACKED_PEERS then Some(CapacityExhausted)
    else if session in v.fences || HasSession(v, session) then Some(AlreadyActive)
    else if |v.fences| >= MAX_ACTIVE_BOOTSTRAPS then Some(CapacityExhausted)
    else if |History(v.starts, peer)| >= MAX_PEER_STARTS then Some(PeerRateLimited)
    else None
  }

  function FreshAttempt(peer: Peer, binding: Binding, bootstrap: Id, workspace: Id, code: Code, now: nat): Attempt {
    Attempt(binding, peer, bootstrap + 1, workspace, Some(code), bootstrap + 2, now + CODE_TTL, now + HARD_LIFETIME, 0,
            AwaitingCode, None, None)
  }

  /** Mint three identifiers, create the hidden workspace, read it back, and fence the session. */
  function Open(v: Verifier, peer: Peer, binding: Binding, code: Code, now: nat, faults: Faults)
    : (Verifier, Result<Challenge, VerifierError>)
  {
    if v.nextCounter + 3 > U64_MAX then (v.(nextCounter := U64_MAX), Err(Overflow))
    else
      var id, minted := v.nextCounter, v.(nextCounter := v.nextCounter + 3);
      if now + HARD_LIFETIME > U64_MAX then (minted, Err(Overflow))
      else if v.nextWorkspace >= U64_MAX then (minted, Err(WorkspaceFailure))
      else
        var workspace := v.nextWorkspace;
        var counted := minted.(nextWorkspace := workspace + 1);
        if faults.create then (counted, Err(WorkspaceFailure))
        else
          var created := counted.(workspaces := v.workspaces[workspace := binding.session]);
          if faults.readback then (Close(created, workspace, faults.closes), Err(WorkspaceFailure))
          else
            (created.(attempts := v.attempts[id := FreshAttempt(peer, binding, id, workspace, code, now)],
                      fences := v.fences[binding.session := id]),
             Ok(Challenge(id, id + 2, now + CODE_TTL)))
  }

  /** Lifetimes are enforced before anything is admitted. */
  function Swept(v: Verifier, now: nat, fails: set<Id>): Verifier {
    PruneRetained(Reap(v, now, fails), now)
  }

  function Begin(swept: Verifier, peer: Peer, binding: Binding, code: Code, now: nat, faults: Faults)
    : (Verifier, Result<Challenge, VerifierError>)
  {
    if |swept.attempts| >= MAX_RETAINED_BOOTSTRAPS then (swept, Err(CapacityExhausted))
    else
      var ready := swept.(starts := Prune(swept.starts, now));
      match Refusal(ready, peer, binding.session)
      case Some(error) => (ready, Err(error))
      case None => Open(ready.(starts := Record(ready.starts, peer, now)), peer, binding, code, now, faults)
  }

  function Start(v: Verifier, peer: Peer, binding: Binding, code: Code, now: nat, faults: Faults)
    : (Verifier, Result<Challenge, VerifierError>)
  {
    if now == 0 then (v, Err(InvalidValue))
    else Begin(Swept(v, now, faults.closes), peer, binding, code, now, faults)
  }

  // ---------------------------------------------------------------- submit

  /** Why a submission never reaches the comparison of codes. */
  function SubmitRefusal(v: Verifier, id: Id, challenge: Id, code: Option<Code>): Option<VerifierError> {
    if code.None? then Some(InvalidValue)
    else if id !in v.attempts then Some(NotFound)
    else
      var attempt := v.attempts[id];
      if attempt.phase == Cleaning then Some(CleanupPending)
      else if attempt.phase != AwaitingCode then Some(AlreadyTerminal)
      else if challenge != attempt.challenge then Some(InvalidChallenge)
      else None
  }

  predicate TooLate(attempt: Attempt, now: nat) {
    now == 0 || now > attempt.challengeExpires || now > attempt.hardExpires
  }

  function FailCode(v: Verifier, id: Id, fails: set<Id>): (Verifier, Result<Metadata, VerifierError>)
    requires id in v.attempts
  {
    var failures := v.attempts[id].failures + 1;
    var counted := v.(attempts := v.attempts[id := v.attempts[id].(failures := failures)]);
    if failures < MAX_CODE_FAILURES then (counted, Err(CodeMismatch))
    else
      var (ended, closed) := CloseThenEnd(counted, id, Rejected, fails);
      (ended, Err(if closed then CodeRateLimited else CleanupPending))
  }

  /** The issuer: a failure consumes nothing, an overflowing expiry consumes a serial. */
  function Issue(v: Verifier, approval: Id, binding: Binding, now: nat, fails: bool): (Verifier, Result<Metadata, VerifierError>) {
    if fails then (v, Err(IssuanceFailed))
    else if now == 0 then (v, Err(InvalidValue))
    else if v.nextSerial >= U64_MAX then (v, Err(Overflow))
    else
      var counted := v.(nextSerial := v.nextSerial + 1);
      if now + CERTIFICATE_TTL > U64_MAX then (counted, Err(Overflow))
      else (counted.(issuedCount := v.issuedCount + 1), Ok(Metadata(approval, binding, v.nextSerial, now + CERTIFICATE_TTL)))
  }

  function IssueFor(v: Verifier, id: Id, now: nat, fails: bool): (Verifier, Result<Metadata, VerifierError>)
    requires id in v.attempts
  {
    var attempt := v.attempts[id].(code := None);
    var (issuing, issued) := Issue(v.(attempts := v.attempts[id := attempt]), attempt.approval, attempt.binding, now, fails);
    match issued
    case Err(error) => (MarkTerminal(issuing, id, Rejected), Err(error))
    case Ok(metadata) =>
      (issuing.(attempts := issuing.attempts[id := attempt.(issued := Some(metadata), issuedAt := Some(now), phase := Issued)]),
       Ok(metadata))
  }

  function Submit(v: Verifier, id: Id, challenge: Id, code: Option<Code>, now: nat, fails: set<Id>, issueFails: bool)
    : (Verifier, Result<Metadata, VerifierError>)
  {
    match SubmitRefusal(v, id, challenge, code)
    case Some(error) => (v, Err(error))
    case None =>
      var attempt := v.attempts[id];
      if TooLate(attempt, now) then
        var (ended, closed) := CloseThenEnd(v, id, Elapsed, fails);
        (ended, Err(if closed then Expired else CleanupPending))
      else if attempt.code.None? then (v, Err(InvalidState))
      else if attempt.code != code then FailCode(v, id, fails)
      else if !CloseSucceeds(v, attempt.workspace, fails) then (MarkCleaning(v, id), Err(CleanupPending))
      else IssueFor(Close(v, attempt.workspace, fails), id, now, issueFails)
  }

  // ---------------------------------------------------------------- cleanup

  function RetryCleanup(v: Verifier, id: Id, fails: set<Id>): (Verifier, Result<(), VerifierError>) {
    if id !in v.attempts then (v, Err(NotFound))
    else if v.attempts[id].phase != Cleaning then (v, Err(InvalidState))
    else
      var workspace := v.attempts[id].workspace;
      if CloseSucceeds(v, workspace, fails) then (MarkTerminal(Close(v, workspace, fails), id, Rejected), Ok(()))
      else (v, Err(CleanupPending))
  }

  /** Closes one workspace of the session, whether or not an attempt still owns it. */
  function RetryOrphan(v: Verifier, session: Session, chosen: Id, fails: set<Id>): (Verifier, Result<(), VerifierError>)
    requires HasSession(v, session) ==> chosen in v.workspaces && v.workspaces[chosen] == session
  {
    if !ValidSession(session) then (v, Err(InvalidSession))
    else if !HasSession(v, session) then (v, Err(NotFound))
    else if chosen in fails then (v, Err(CleanupPending))
    else (Close(v, chosen, fails), Ok(()))
  }

  // ---------------------------------------------------------------- reconcile

  predicate HasApproval(v: Verifier, id: Id, approval: Id) {
    id in v.attempts && v.attempts[id].approval == approval
  }

  ghost function FindApproval(v: Verifier, approval: Id): Option<Id> {
    if exists id :: HasApproval(v, id, approval) then
      var id :| HasApproval(v, id, approval);
      Some(id)
    else None
  }

  function RecoveryOf(v: Verifier, id: Id, now: nat): (Verifier, Result<Recovery, VerifierError>)
    requires id in v.attempts
  {
    var attempt := v.attempts[id];
    match attempt.phase
    case AwaitingCode => (v, Ok(Pending(attempt.hardExpires)))
    case Cleaning => (v, Ok(Pending(attempt.hardExpires)))
    case Rejected => (v, Ok(Refused(1)))
    case Elapsed => (v, Ok(Refused(2)))
    case Issued =>
      if attempt.issuedAt.None? || attempt.issued.None? then (v, Err(InvalidState))
      else if now < attempt.issuedAt.value then (v, Err(InvalidValue))
      else if attempt.issuedAt.value + RECOVERY_TTL > U64_MAX then (v, Err(Overflow))
      else if now > attempt.issuedAt.value + RECOVERY_TTL then (MarkTerminal(v, id, Elapsed), Ok(Refused(2)))
      else (v, Ok(Recovered(attempt.issued.value)))
  }

  ghost function Reconcile(v: Verifier, approval: Id, binding: Binding, now: nat, fails: set<Id>)
    : (Verifier, Result<Recovery, VerifierError>)
  {
    if now == 0 then (v, Err(InvalidValue))
    else
      match FindApproval(v, approval)
      case None => (v, Err(NotFound))
      case Some(id) =>
        var attempt := v.attempts[id];
        if attempt.binding != binding then (v, Err(AuthorityMismatch))
        else if attempt.phase == AwaitingCode && now > attempt.hardExpires then
          var (ended, closed) := CloseThenEnd(v, id, Elapsed, fails);
          if closed then (ended, Ok(Refused(2))) else RecoveryOf(ended, id, now)
        else RecoveryOf(v, id, now)
  }

  /** Reconcile from the wire-visible part of the binding. */
  ghost function ReconcileWire(v: Verifier, approval: Id, coreBinding: Digest, session: Session, now: nat, fails: set<Id>)
    : (Verifier, Result<Recovery, VerifierError>)
  {
    if !ValidSession(session) then (v, Err(InvalidSession))
    else
      match FindApproval(v, approval)
      case None => (v, Err(NotFound))
      case Some(id) =>
        var binding := v.attempts[id].binding;
        if binding.coreBinding != coreBinding || binding.session != session then (v, Err(AuthorityMismatch))
        else Reconcile(v, approval, binding, now, fails)
  }
}
