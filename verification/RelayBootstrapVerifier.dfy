/** The verifier object of src/bootstrap.rs with its hidden-workspace and issuer fakes, updated in place. */
module RelayBootstrapVerifier {
  import opened Common
  import opened Sessions
  import opened StartLimiter
  import opened BootstrapVerifier
  import opened BootstrapVerifierRuns

  class FakeVerificationWorkspace {
    var nextCounter: nat
    var workspaces: map<Id, Session>

    constructor ()
      ensures nextCounter == 1 && workspaces == map[]
    {
      nextCounter, workspaces := 1, map[];
    }

    method Create(session: Session, fails: bool) returns (id: Option<Id>)
      modifies this
      ensures id.Some? <==> old(nextCounter) < U64_MAX && !fails
      ensures nextCounter == if old(nextCounter) < U64_MAX then old(nextCounter) + 1 else old(nextCounter)
      ensures id.Some? ==> id.value == old(nextCounter) && workspaces == old(workspaces)[id.value := session]
      ensures id.None? ==> workspaces == old(workspaces)
    {
      if nextCounter >= U64_MAX {
        return None;
      }
      var minted := nextCounter;
      nextCounter := nextCounter + 1;
      if fails {
        return None;
      }
      workspaces := workspaces[minted := session];
      return Some(minted);
    }

    method Close(id: Id, fails: set<Id>) returns (closed: bool)
      modifies this`workspaces
      ensures closed <==> id !in fails && id in old(workspaces)
      ensures workspaces == if closed then old(workspaces) - {id} else old(workspaces)
    {
      if id in fails || id !in workspaces {
        return false;
      }
      workspaces := workspaces - {id};
      return true;
    }
  }

  class FakeCoreCertificateIssuer {
    var nextSerial: nat
    var issuedCount: nat

    constructor ()
      ensures nextSerial == 1 && issuedCount == 0
    {
      nextSerial, issuedCount := 1, 0;
    }

    method Issue(approval: Id, binding: Binding, now: nat, fails: bool) returns (result: Result<Metadata, VerifierError>)
      modifies this
      ensures forall v: Verifier | v.nextSerial == old(nextSerial) && v.issuedCount == old(issuedCount) ::
        BootstrapVerifier.Issue(v, approval, binding, now, fails) == (Serials(v, nextSerial, issuedCount), result)
    {
      if fails {
        return Err(IssuanceFailed);
      }
      if now == 0 {
        return Err(InvalidValue);
      }
      if nextSerial >= U64_MAX {
        return Err(Overflow);
      }
      var serial := nextSerial;
      nextSerial := nextSerial + 1;
      var notAfter := CheckedAdd(now, CERTIFICATE_TTL);
      if notAfter.None? {
        return Err(Overflow);
      }
      issuedCount := issuedCount + 1;
      return Ok(Metadata(approval, binding, serial, notAfter.value));
    }
  }

  /** A reap restricted to some of the due attempts. */
  function ReapOnly(v: Verifier, ids: set<Id>, now: nat, fails: set<Id>): Verifier {
    var ending := EndingIds(v, now, fails) * ids;
    v.(attempts := map id | id in v.attempts :: if id in ids then ReapedAttempt(v, v.attempts[id], now, fails) else v.attempts[id],
       fences := v.fences - SessionsOf(v, ending),
       workspaces := v.workspaces - PendableWorkspacesOf(v, ending))
  }

  function DueIds(v: Verifier, now: nat): set<Id> {
    set id | id in v.attempts && Due(v.attempts[id], now)
  }

  lemma ReapOnlyAllDue(v: Verifier, now: nat, fails: set<Id>)
    requires now != 0
    ensures ReapOnly(v, DueIds(v, now), now, fails) == Reap(v, now, fails)
    ensures EndingIds(v, now, fails) * DueIds(v, now) == EndingIds(v, now, fails)
  {
    assert EndingIds(v, now, fails) * DueIds(v, now) == EndingIds(v, now, fails);
    assert ReapOnly(v, DueIds(v, now), now, fails).attempts == Reap(v, now, fails).attempts;
  }

  lemma ReapNothing(v: Verifier, now: nat, fails: set<Id>)
    ensures ReapOnly(v, {}, now, fails) == v
  {
    assert EndingIds(v, now, fails) * {} == {};
    assert ReapOnly(v, {}, now, fails).attempts == v.attempts;
    assert SessionsOf(v, {}) == {} && PendableWorkspacesOf(v, {}) == {};
  }

  /** The one-attempt step of a reap. */
  function ReapOne(m: Verifier, id: Id, fails: set<Id>): (Verifier, bool)
    requires id in m.attempts
  {
    if m.attempts[id].phase == Issued then (MarkTerminal(m, id, Elapsed), true) else CloseThenEnd(m, id, Elapsed, fails)
  }

  lemma StillCloses(v: Verifier, done: set<Id>, id: Id, now: nat, fails: set<Id>)
    requires Fencing(v) && id in v.attempts && id !in done
    ensures var workspace := v.attempts[id].workspace;
      CloseSucceeds(ReapOnly(v, done, now, fails), workspace, fails) <==> CloseSucceeds(v, workspace, fails)
  {
    forall j | j in EndingIds(v, now, fails) * done ensures v.attempts[j].workspace != v.attempts[id].workspace {
      assert Apart(v, j, id);
    }
  }

  lemma ReapMarksTerminal(v: Verifier, done: set<Id>, id: Id, now: nat, fails: set<Id>)
    requires id in v.attempts && id !in done && id in EndingIds(v, now, fails)
    ensures var m := ReapOnly(v, done, now, fails);
      var released := if Pendable(v.attempts[id]) then m.(workspaces := m.workspaces - {v.attempts[id].workspace}) else m;
      MarkTerminal(released, id, Elapsed) == ReapOnly(v, done + {id}, now, fails)
  {
    OneMoreEnding(v, EndingIds(v, now, fails), done, id);
    var m, n := ReapOnly(v, done, now, fails), ReapOnly(v, done + {id}, now, fails);
    assert n.attempts == m.attempts[id := v.attempts[id].(phase := Elapsed, code := None)];
    assert n.fences == m.fences - {v.attempts[id].binding.session};
  }

  lemma ReapMarksCleaning(v: Verifier, done: set<Id>, id: Id, now: nat, fails: set<Id>)
    requires id in v.attempts && id !in done && Due(v.attempts[id], now) && id !in EndingIds(v, now, fails)
    ensures MarkCleaning(ReapOnly(v, done, now, fails), id) == ReapOnly(v, done + {id}, now, fails)
  {
    OneMoreEnding(v, EndingIds(v, now, fails), done, id);
    var m, n := ReapOnly(v, done, now, fails), ReapOnly(v, done + {id}, now, fails);
    assert n.attempts == m.attempts[id := v.attempts[id].(phase := Cleaning)];
  }

  lemma ReapOneMore(v: Verifier, done: set<Id>, id: Id, now: nat, fails: set<Id>)
    requires Fencing(v) && id in v.attempts && id !in done && Due(v.attempts[id], now)
    ensures ReapOne(ReapOnly(v, done, now, fails), id, fails)
         == (ReapOnly(v, done + {id}, now, fails), id in EndingIds(v, now, fails))
  {
    StillCloses(v, done, id, now, fails);
    if id in EndingIds(v, now, fails) {
      ReapMarksTerminal(v, done, id, now, fails);
    } else {
      ReapMarksCleaning(v, done, id, now, fails);
    }
  }

  lemma OneMoreEnding(v: Verifier, ending: set<Id>, done: set<Id>, id: Id)
    requires id in v.attempts
    ensures ending * (done + {id}) == ending * done + (if id in ending then {id} else {})
    ensures SessionsOf(v, ending * (done + {id}))
         == SessionsOf(v, ending * done) + (if id in ending then {v.attempts[id].binding.session} else {})
    ensures PendableWorkspacesOf(v, ending * (done + {id}))
         == PendableWorkspacesOf(v, ending * done)
            + (if id in ending && Pendable(v.attempts[id]) then {v.attempts[id].workspace} else {})
  {
    assert ending * (done + {id}) == ending * done + (if id in ending then {id} else {});
  }

  lemma MoveOver(todo: set<Id>, done: set<Id>, id: Id)
    requires todo !! done && id in todo
    ensures todo - {id} !! done + {id}
    ensures done + {id} + (todo - {id}) == done + todo
  {
  }

  lemma CountOneMore(ending: set<Id>, done: set<Id>, id: Id)
    requires id !in done
    ensures |ending * (done + {id})| == |ending * done| + if id in ending then 1 else 0
  {
    assert ending * (done + {id}) == ending * done + (if id in ending then {id} else {});
  }

  /** A prune restricted to some of the removable attempts. */
  function PruneOnly(v: Verifier, ids: set<Id>): Verifier {
    v.(attempts := v.attempts - ids,
       fences := map s | s in v.fences && !(v.fences[s] in ids && v.fences[s] in v.attempts && v.attempts[v.fences[s]].binding.session == s)
                 :: v.fences[s])
  }

  /** The one-attempt step of a prune. */
  function PruneOne(m: Verifier, id: Id): Verifier
    requires id in m.attempts
  {
    var session := m.attempts[id].binding.session;
    m.(attempts := m.attempts - {id},
       fences := if session in m.fences && m.fences[session] == id then m.fences - {session} else m.fences)
  }

  lemma PruneOneMore(v: Verifier, done: set<Id>, id: Id)
    requires id in v.attempts && id !in done
    ensures PruneOne(PruneOnly(v, done), id) == PruneOnly(v, done + {id})
  {
    var n := PruneOne(PruneOnly(v, done), id);
    assert PruneOnly(v, done + {id}).attempts == n.attempts;
    assert PruneOnly(v, done + {id}).fences == n.fences;
  }

  lemma PruneNothing(v: Verifier)
    ensures PruneOnly(v, {}) == v
  {
    assert PruneOnly(v, {}).attempts == v.attempts && PruneOnly(v, {}).fences == v.fences;
  }

  lemma PruneAllRemovable(v: Verifier, now: nat)
    ensures PruneOnly(v, RemovableIds(v, now)) == PruneRetained(v, now)
  {
    assert PruneOnly(v, RemovableIds(v, now)).fences == PruneRetained(v, now).fences;
  }

  class RelayBootstrapVerifier {
    const workspace: FakeVerificationWorkspace
    const issuer: FakeCoreCertificateIssuer
    var nextCounter: nat
    var attempts: map<Id, Attempt>
    var activeBySession: map<Session, Id>
    var peerStarts: Starts

    ghost function Model(): Verifier
      reads this, workspace, issuer
    {
      Verifier(nextCounter, attempts, activeBySession, peerStarts,
               workspace.nextCounter, workspace.workspaces, issuer.nextSerial, issuer.issuedCount)
    }

    ghost predicate Valid()
      reads this, workspace, issuer
    {
      Fencing(Model())
    }

    constructor ()
      ensures fresh(workspace) && fresh(issuer)
      ensures Model() == NEW_VERIFIER && Valid()
    {
      workspace := new FakeVerificationWorkspace();
      issuer := new FakeCoreCertificateIssuer();
      nextCounter, attempts, activeBySession, peerStarts := 1, map[], map[], map[];
    }

    method MarkTerminal(id: Id, phase: Phase)
      modifies this`attempts, this`activeBySession
      ensures Model() == if id in old(attempts) then BootstrapVerifier.MarkTerminal(old(Model()), id, phase) else old(Model())
    {
      if id in attempts {
        var session := attempts[id].binding.session;
        attempts := attempts[id := attempts[id].(phase := phase, code := None)];
        activeBySession := activeBySession - {session};
      }
    }

    /** Close the attempt's workspace and end it, or leave it to an explicit cleanup. */
    method CloseAndEnd(id: Id, phase: Phase, fails: set<Id>) returns (closed: bool)
      requires id in attempts
      modifies this`attempts, this`activeBySession, workspace
      ensures (Model(), closed) == CloseThenEnd(old(Model()), id, phase, fails)
    {
      closed := workspace.Close(attempts[id].workspace, fails);
      if closed {
        MarkTerminal(id, phase);
      } else {
        attempts := attempts[id := attempts[id].(phase := Cleaning)];
      }
    }

    method CollectDue(now: nat) returns (due: set<Id>)
      ensures due == DueIds(Model(), now)
    {
      due := {};
      var todo := attempts.Keys;
      while todo != {}
        invariant todo <= attempts.Keys
        invariant due == set id | id in attempts && id !in todo && Due(attempts[id], now)
        decreases |todo|
      {
        var id :| id in todo;
        if Due(attempts[id], now) {
          due := due + {id};
        }
        todo := todo - {id};
      }
    }

    method EndDue(id: Id, fails: set<Id>) returns (ended: bool)
      requires id in attempts
      modifies this`attempts, this`activeBySession, workspace
      ensures (Model(), ended) == ReapOne(old(Model()), id, fails)
    {
      if attempts[id].phase == Issued {
        MarkTerminal(id, Elapsed);
        ended := true;
      } else {
        ended := CloseAndEnd(id, Elapsed, fails);
      }
    }

    method EndOneMore(ghost v: Verifier, ghost done: set<Id>, id: Id, now: nat, fails: set<Id>) returns (ended: bool)
      requires Fencing(v) && Model() == ReapOnly(v, done, now, fails)
      requires id in v.attempts && id !in done && Due(v.attempts[id], now)
      modifies this`attempts, this`activeBySession, workspace
      ensures Model() == ReapOnly(v, done + {id}, now, fails)
      ensures ended <==> id in EndingIds(v, now, fails)
    {
      ReapOneMore(v, done, id, now, fails);
      ended := EndDue(id, fails);
    }

    method EndAllDue(due: set<Id>, now: nat, fails: set<Id>) returns (expired: nat)
      requires Valid() && due == DueIds(Model(), now)
      modifies this`attempts, this`activeBySession, workspace
      ensures Model() == ReapOnly(old(Model()), due, now, fails)
      ensures expired == |EndingIds(old(Model()), now, fails) * due|
    {
      expired := 0;
      ghost var v, ending := Model(), EndingIds(Model(), now, fails);
      ghost var done: set<Id> := {};
      var todo := due;
      ReapNothing(v, now, fails);
      while todo != {}
        invariant todo !! done
        invariant done + todo == due
        invariant Model() == ReapOnly(v, done, now, fails)
        invariant expired == |ending * done|
        decreases |todo|
      {
        var id :| id in todo;
        MoveOver(todo, done, id);
        CountOneMore(ending, done, id);
        var ended := EndOneMore(v, done, id, now, fails);
        if ended {
          expired := expired + 1;
        }
        todo := todo - {id};
        done := done + {id};
      }
    }

    /** Reap attempts whose hard or issued-recovery lifetime has elapsed; report how many ended. */
    method ReapExpired(now: nat, fails: set<Id>) returns (expired: nat)
      requires Valid()
      modifies this`attempts, this`activeBySession, workspace
      ensures Model() == Reap(old(Model()), now, fails)
      ensures expired == if now == 0 then 0 else |EndingIds(old(Model()), now, fails)|
    {
      if now == 0 {
        return 0;
      }
      ReapOnlyAllDue(Model(), now, fails);
      var due := CollectDue(now);
      expired := EndAllDue(due, now, fails);
    }

    method CollectRemovable(now: nat) returns (removable: set<Id>)
      ensures removable == RemovableIds(Model(), now)
    {
      removable := {};
      var todo := attempts.Keys;
      while todo != {}
        invariant todo <= attempts.Keys
        invariant removable == set id | id in attempts && id !in todo && Removable(attempts[id], now)
        decreases |todo|
      {
        var id :| id in todo;
        if Removable(attempts[id], now) {
          removable := removable + {id};
        }
        todo := todo - {id};
      }
    }

    method RemoveAttempt(id: Id)
      requires id in attempts
      modifies this`attempts, this`activeBySession
      ensures Model() == PruneOne(old(Model()), id)
    {
      var session := attempts[id].binding.session;
      attempts := attempts - {id};
      if session in activeBySession && activeBySession[session] == id {
        activeBySession := activeBySession - {session};
      }
    }

    /** Drop terminal attempts and issued records past recovery, with the fences that point at them. */
    method PruneRetainedAttempts(now: nat)
      modifies this`attempts, this`activeBySession
      ensures Model() == PruneRetained(old(Model()), now)
    {
      ghost var v := Model();
      var removable := CollectRemovable(now);
      var todo := removable;
      PruneNothing(v);
      while todo != {}
        invariant todo <= removable
        invariant Model() == PruneOnly(v, removable - todo)
        decreases |todo|
      {
        var id :| id in todo;
        ghost var done := removable - todo;
        PruneOneMore(v, done, id);
        assert removable - (todo - {id}) == done + {id};
        RemoveAttempt(id);
        todo := todo - {id};
      }
      assert removable - {} == removable;
      PruneAllRemovable(v, now);
    }

    method MintId() returns (id: Option<Id>)
      modifies this`nextCounter
      ensures id == if old(nextCounter) < U64_MAX then Some(old(nextCounter)) else None
      ensures nextCounter == if id.Some? then old(nextCounter) + 1 else old(nextCounter)
    {
      if nextCounter >= U64_MAX {
        return None;
      }
      id := Some(nextCounter);
      nextCounter := nextCounter + 1;
    }

    /** Mint, create, read back, and only then record the attempt and its fence. */
    method OpenAttempt(peer: Peer, binding: Binding, code: Code, now: nat, faults: Faults)
      returns (result: Result<Challenge, VerifierError>)
      requires nextCounter <= U64_MAX
      modifies this, workspace
      ensures (Model(), result) == Open(old(Model()), peer, binding, code, now, faults)
    {
      var bootstrapId := MintId();
      if bootstrapId.None? {
        return Err(Overflow);
      }
      var approvalId := MintId();
      if approvalId.None? {
        return Err(Overflow);
      }
      var challenge := MintId();
      if challenge.None? {
        return Err(Overflow);
      }
      var bootstrap := bootstrapId.value;
      var expires := CheckedAdd(now, CODE_TTL);
      if expires.None? {
        return Err(Overflow);
      }
      var hardExpires := CheckedAdd(now, HARD_LIFETIME);
      if hardExpires.None? {
        return Err(Overflow);
      }
      var created := workspace.Create(binding.session, faults.create);
      if created.None? {
        return Err(WorkspaceFailure);
      }
      if faults.readback {
        var _ := workspace.Close(created.value, faults.closes);
        return Err(WorkspaceFailure);
      }
      attempts := attempts[bootstrap := Attempt(binding, peer, approvalId.value, created.value, Some(code), challenge.value,
                                                expires.value, hardExpires.value, 0, AwaitingCode, None, None)];
      activeBySession := activeBySession[binding.session := bootstrap];
      return Ok(Challenge(bootstrap, challenge.value, expires.value));
    }

    /** Start one bounded bootstrap. */
    method Start(peer: Peer, binding: Binding, code: Code, now: nat, faults: Faults)
      returns (result: Result<Challenge, VerifierError>)
      requires Valid()
      modifies this, workspace
      ensures (Model(), result) == BootstrapVerifier.Start(old(Model()), peer, binding, code, now, faults) && Valid()
    {
      StartKeepsFencing(Model(), peer, binding, code, now, faults);
      if now == 0 {
        return Err(InvalidValue);
      }
      SweptKeepsFencing(Model(), now, faults.closes);
      var _ := ReapExpired(now, faults.closes);
      PruneRetainedAttempts(now);
      assert Model() == Swept(old(Model()), now, faults.closes);
      result := BeginSwept(peer, binding, code, now, faults);
    }

    method BeginSwept(peer: Peer, binding: Binding, code: Code, now: nat, faults: Faults)
      returns (result: Result<Challenge, VerifierError>)
      requires nextCounter <= U64_MAX
      modifies this, workspace
      ensures (Model(), result) == Begin(old(Model()), peer, binding, code, now, faults)
    {
      if |attempts| >= MAX_RETAINED_BOOTSTRAPS {
        return Err(CapacityExhausted);
      }
      peerStarts := PruneStarts(peerStarts, now);
      if peer !in peerStarts && |peerStarts| >= MAX_TRACKED_PEERS {
        return Err(CapacityExhausted);
      }
      if binding.session in activeBySession || exists w | w in workspace.workspaces :: workspace.workspaces[w] == binding.session {
        return Err(AlreadyActive);
      }
      if |activeBySession| >= MAX_ACTIVE_BOOTSTRAPS {
        return Err(CapacityExhausted);
      }
      var history := if peer in peerStarts then peerStarts[peer] else [];
      if |history| >= MAX_PEER_STARTS {
        return Err(PeerRateLimited);
      }
      peerStarts := peerStarts[peer := history + [now]];
      result := OpenAttempt(peer, binding, code, now, faults);
    }

    method IssueCertificate(id: Id, now: nat, fails: bool) returns (result: Result<Metadata, VerifierError>)
      requires id in attempts
      modifies this`attempts, this`activeBySession, issuer
      ensures (Model(), result) == IssueFor(old(Model()), id, now, fails)
    {
      attempts := attempts[id := attempts[id].(code := None)];
      ghost var issuing := Model();
      result := issuer.Issue(attempts[id].approval, attempts[id].binding, now, fails);
      assert BootstrapVerifier.Issue(issuing, attempts[id].approval, attempts[id].binding, now, fails)
          == (Serials(issuing, issuer.nextSerial, issuer.issuedCount), result);
      if result.Err? {
        MarkTerminal(id, Rejected);
        return;
      }
      attempts := attempts[id := attempts[id].(issued := Some(result.value), issuedAt := Some(now), phase := Issued)];
    }

    /** Submit the code; issue one certificate at most once. */
    method Submit(id: Id, challenge: Id, code: Option<Code>, now: nat, fails: set<Id>, issueFails: bool)
      returns (result: Result<Metadata, VerifierError>)
      requires Valid()
      modifies this`attempts, this`activeBySession, workspace, issuer
      ensures (Model(), result) == BootstrapVerifier.Submit(old(Model()), id, challenge, code, now, fails, issueFails) && Valid()
    {
      SubmitKeepsFencing(Model(), id, challenge, code, now, fails, issueFails);
      if code.None? {
        return Err(InvalidValue);
      }
      if id !in attempts {
        return Err(NotFound);
      }
      var attempt := attempts[id];
      if attempt.phase != AwaitingCode {
        return Err(if attempt.phase == Cleaning then CleanupPending else AlreadyTerminal);
      }
      if challenge != attempt.challenge {
        return Err(InvalidChallenge);
      }
      if now == 0 || now > attempt.challengeExpires || now > attempt.hardExpires {
        var expired := CloseAndEnd(id, Elapsed, fails);
        return Err(if expired then Expired else CleanupPending);
      }
      assert AttemptSound(Model(), id);
      if attempt.code.value != code.value {
        result := CountWrongCode(id, fails);
        return;
      }
      var closed := workspace.Close(attempt.workspace, fails);
      if !closed {
        attempts := attempts[id := attempts[id].(phase := Cleaning)];
        return Err(CleanupPending);
      }
      result := IssueCertificate(id, now, issueFails);
    }

    method CountWrongCode(id: Id, fails: set<Id>) returns (result: Result<Metadata, VerifierError>)
      requires id in attempts
      modifies this`attempts, this`activeBySession, workspace
      ensures (Model(), result) == FailCode(old(Model()), id, fails)
    {
      var failures := attempts[id].failures + 1;
      attempts := attempts[id := attempts[id].(failures := failures)];
      if failures < MAX_CODE_FAILURES {
        return Err(CodeMismatch);
      }
      var closed := CloseAndEnd(id, Rejected, fails);
      return Err(if closed then CodeRateLimited else CleanupPending);
    }

    method RetryCleanup(id: Id, fails: set<Id>) returns (result: Result<(), VerifierError>)
      requires Valid()
      modifies this`attempts, this`activeBySession, workspace
      ensures (Model(), result) == BootstrapVerifier.RetryCleanup(old(Model()), id, fails) && Valid()
    {
      RetryCleanupKeepsFencing(Model(), id, fails);
      if id !in attempts {
        return Err(NotFound);
      }
      if attempts[id].phase != Cleaning {
        return Err(InvalidState);
      }
      var closed := workspace.Close(attempts[id].workspace, fails);
      if !closed {
        return Err(CleanupPending);
      }
      MarkTerminal(id, Rejected);
      return Ok(());
    }

    /** Closes some workspace of the session; which one is reported for the specification. */
    method RetryOrphanedWorkspace(session: Session, fails: set<Id>)
      returns (result: Result<(), VerifierError>, ghost chosen: Id)
      requires Valid()
      modifies workspace
      ensures HasSession(old(Model()), session) ==> chosen in old(workspace.workspaces) && old(workspace.workspaces)[chosen] == session
      ensures (Model(), result) == RetryOrphan(old(Model()), session, chosen, fails) && Valid()
    {
      chosen := 0;
      if w :| w in workspace.workspaces && workspace.workspaces[w] == session {
        chosen := w;
      }
      if !ValidSession(session) {
        return Err(InvalidSession), chosen;
      }
      if !(exists w | w in workspace.workspaces :: workspace.workspaces[w] == session) {
        return Err(NotFound), chosen;
      }
      var found: Id :| found in workspace.workspaces && workspace.workspaces[found] == session;
      chosen := found;
      RetryOrphanKeepsFencing(Model(), session, chosen, fails);
      var closed := workspace.Close(found, fails);
      return if closed then Ok(()) else Err(CleanupPending), chosen;
    }

    /** The attempt with this approval identifier, if any; there is at most one. */
    method FindByApproval(approval: Id) returns (found: Option<Id>)
      requires Valid()
      ensures found == FindApproval(Model(), approval)
    {
      var todo := attempts.Keys;
      while todo != {}
        invariant todo <= attempts.Keys
        invariant forall id | id in attempts && id !in todo :: attempts[id].approval != approval
        decreases |todo|
      {
        var id :| id in todo;
        if attempts[id].approval == approval {
          assert AttemptSound(Model(), id);
          ApprovalIsFound(Model(), id);
          return Some(id);
        }
        todo := todo - {id};
      }
      return None;
    }

    method Reconcile(approval: Id, binding: Binding, now: nat, fails: set<Id>) returns (result: Result<Recovery, VerifierError>)
      requires Valid()
      modifies this`attempts, this`activeBySession, workspace
      ensures (Model(), result) == BootstrapVerifier.Reconcile(old(Model()), approval, binding, now, fails) && Valid()
    {
      ReconcileKeepsFencing(Model(), approval, binding, now, fails);
      if now == 0 {
        return Err(InvalidValue);
      }
      var found := FindByApproval(approval);
      if found.None? {
        return Err(NotFound);
      }
      var id := found.value;
      if attempts[id].binding != binding {
        return Err(AuthorityMismatch);
      }
      if attempts[id].phase == AwaitingCode && now > attempts[id].hardExpires {
        var expired := CloseAndEnd(id, Elapsed, fails);
        if expired {
          return Ok(Refused(2));
        }
      }
      result := Recover(id, now);
    }

    method Recover(id: Id, now: nat) returns (result: Result<Recovery, VerifierError>)
      requires id in attempts
      modifies this`attempts, this`activeBySession
      ensures (Model(), result) == RecoveryOf(old(Model()), id, now)
    {
      var attempt := attempts[id];
      match attempt.phase {
        case AwaitingCode => return Ok(Pending(attempt.hardExpires));
        case Cleaning => return Ok(Pending(attempt.hardExpires));
        case Rejected => return Ok(Refused(1));
        case Elapsed => return Ok(Refused(2));
        case Issued =>
          if attempt.issuedAt.None? || attempt.issued.None? {
            return Err(InvalidState);
          }
          var issuedAt := attempt.issuedAt.value;
          if now < issuedAt {
            return Err(InvalidValue);
          }
          var recoveryExpires := CheckedAdd(issuedAt, RECOVERY_TTL);
          if recoveryExpires.None? {
            return Err(Overflow);
          }
          if now > recoveryExpires.value {
            MarkTerminal(id, Elapsed);
            return Ok(Refused(2));
          }
          return Ok(Recovered(attempt.issued.value));
      }
    }

    method ReconcileWire(approval: Id, coreBinding: Digest, session: Session, now: nat, fails: set<Id>)
      returns (result: Result<Recovery, VerifierError>)
      requires Valid()
      modifies this`attempts, this`activeBySession, workspace
      ensures (Model(), result) == BootstrapVerifier.ReconcileWire(old(Model()), approval, coreBinding, session, now, fails) && Valid()
    {
      if !ValidSession(session) {
        return Err(InvalidSession);
      }
      var found := FindByApproval(approval);
      if found.None? {
        return Err(NotFound);
      }
      var binding := attempts[found.value].binding;
      if binding.coreBinding != coreBinding || binding.session != session {
        return Err(AuthorityMismatch);
      }
      result := Reconcile(approval, binding, now, fails);
    }
  }

  lemma ApprovalIsFound(v: Verifier, id: Id)
    requires Fencing(v) && id in v.attempts
    ensures FindApproval(v, v.attempts[id].approval) == Some(id)
  {
    assert AttemptSound(v, id) && HasApproval(v, id, v.attempts[id].approval);
    var found := FindApproval(v, v.attempts[id].approval).value;
    assert AttemptSound(v, found);
  }
}
