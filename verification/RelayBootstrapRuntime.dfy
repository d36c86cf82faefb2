/** The runtime object of src/bootstrap_runtime.rs and its state store, updated in place. */
module RelayBootstrapRuntime {
  import opened Common
  import opened Sessions
  import opened StartLimiter
  import opened BootstrapRuntime

  method ListAttempts(attempts: map<Id, Attempt>) returns (records: seq<StateRecord>)
    ensures records == AttemptRecords(attempts)
  {
    var ids := KeysInOrder(attempts.Keys);
    records := [];
    for n := 0 to |ids|
      invariant |records| == n
      invariant forall i | 0 <= i < n :: ids[i] in attempts && records[i] == AttemptRecord(ids[i], attempts[ids[i]])
    {
      assert ids[n] in ids;
      records := records + [AttemptRecord(ids[n], attempts[ids[n]])];
    }
  }

  method ListApp(app: map<Id, AppApproval>) returns (records: seq<StateRecord>)
    ensures records == AppRecords(app)
  {
    var ids := KeysInOrder(app.Keys);
    records := [];
    for n := 0 to |ids|
      invariant |records| == n
      invariant forall i | 0 <= i < n :: ids[i] in app && records[i] == AppRecord(ids[i], app[ids[i]])
    {
      assert ids[n] in ids;
      records := records + [AppRecord(ids[n], app[ids[n]])];
    }
  }

  method ListCore(core: map<Id, CoreApproval>) returns (records: seq<StateRecord>)
    ensures records == CoreRecords(core)
  {
    var ids := KeysInOrder(core.Keys);
    records := [];
    for n := 0 to |ids|
      invariant |records| == n
      invariant forall i | 0 <= i < n :: ids[i] in core && records[i] == CoreRecord(core[ids[i]])
    {
      assert ids[n] in ids;
      records := records + [CoreRecord(core[ids[n]])];
    }
  }

  class BootstrapStateStore {
    var file: Option<Image>

    constructor ()
      ensures file == None
    {
      file := None;
    }

    /** Writes everything but the orphans, or removes the file when nothing is left. */
    method Persist(attempts: map<Id, Attempt>, app: map<Id, AppApproval>, core: map<Id, CoreApproval>, fault: PersistFault)
      returns (ok: bool)
      modifies this
      ensures forall s: State | s.attempts == attempts && s.app == app && s.core == core ::
        (file, ok) == BootstrapRuntime.Persist(s, old(file), fault)
    {
      if fault.fails {
        return false;
      }
      var records := ListAttempts(attempts);
      var appRecords := ListApp(app);
      var coreRecords := ListCore(core);
      records := records + appRecords + coreRecords;
      if |records| > MAX_APPROVALS {
        return false;
      }
      if fault.size > MAX_STATE_BYTES {
        return false;
      }
      if attempts == map[] && app == map[] && core == map[] {
        file := None;
        return true;
      }
      file := Some(Image(records, fault.size));
      return true;
    }

    /** Rebuilds the approvals and turns pending records into orphans. */
    method Restore(readFails: bool) returns (state: Option<State>)
      ensures state == BootstrapRuntime.Restore(file, readFails)
    {
      if file.None? {
        return Some(NEW_STATE);
      }
      var image := file.value;
      if readFails || image.size > MAX_READABLE_BYTES || |image.records| > MAX_APPROVALS {
        return None;
      }
      var core, orphans := map[], [];
      var records := image.records;
      for n := 0 to |records|
        invariant AllValid(records[..n])
        invariant core == RestoredCore(records[..n]) && orphans == RestoredOrphans(records[..n])
      {
        var r := records[n];
        if !ValidRecord(r) {
          return None;
        }
        assert records[..n + 1][..n] == records[..n];
        if r.kind.CoreIssued? {
          core := core[r.approval := RestoredApproval(r)];
        } else {
          orphans := orphans + [Orphan(r.session, r.workspace.value)];
        }
      }
      assert records[..|records|] == records;
      return Some(NEW_STATE.(core := core, orphans := orphans));
    }
  }

  class BootstrapRuntimeState {
    const store: BootstrapStateStore
    const session: Session
    var attempts: map<Id, Attempt>
    var coreApprovals: map<Id, CoreApproval>
    var appApprovals: map<Id, AppApproval>
    var activeSessions: set<Session>
    var peerStarts: Starts
    var orphanedWorkspaces: seq<Orphan>
    var nextId: Id
    ghost var owned: set<WorkspaceId>
    ghost var leaked: set<WorkspaceId>
    ghost var kept: map<Id, CoreApproval>

    ghost function Contents(): State
      reads this
    {
      State(attempts, coreApprovals, appApprovals, activeSessions, peerStarts, orphanedWorkspaces)
    }

    ghost function Model(): Machine
      reads this, store
    {
      Machine(session, Contents(), store.file, owned, leaked, nextId, kept)
    }

    constructor (store: BootstrapStateStore, session: Session, restored: State, nextId: Id, ghost kept: map<Id, CoreApproval>)
      ensures this.store == store
      ensures Model() == Machine(session, restored, store.file, {}, {}, nextId, kept)
    {
      this.store, this.session := store, session;
      attempts, coreApprovals, appApprovals := restored.attempts, restored.core, restored.app;
      activeSessions, peerStarts, orphanedWorkspaces := restored.active, restored.starts, restored.orphans;
      this.nextId := nextId;
      owned, leaked, this.kept := {}, {}, kept;
    }

    method PersistState(fault: PersistFault) returns (ok: bool)
      modifies store
      ensures (Model(), ok) == PersistMachine(old(Model()), fault)
    {
      ok := store.Persist(attempts, appApprovals, coreApprovals, fault);
      assert (store.file, ok) == BootstrapRuntime.Persist(Contents(), old(store.file), fault);
    }

    /** Asks the host to close one workspace; a missing one counts as closed. */
    method CloseWorkspace(w: WorkspaceId, fails: set<WorkspaceId>) returns (closed: bool)
      modifies this`owned, this`leaked
      ensures closed == CloseSucceeds(w, fails)
      ensures Model() == if closed then Forget(old(Model()), w) else old(Model())
    {
      closed := 0 < |w| <= MAX_WORKSPACE_ID_BYTES && w !in fails;
      if closed {
        owned, leaked := owned - {w}, leaked - {w};
      }
    }

    /** Closes the listed workspaces in order, stopping at the first that fails. */
    method CloseListed(list: seq<Orphan>, fails: set<WorkspaceId>) returns (closed: nat)
      modifies this`owned, this`leaked
      ensures closed == ClosedPrefix(list, fails)
      ensures Model() == ForgetAll(old(Model()), list[..closed])
    {
      closed := 0;
      ghost var before := Model();
      assert ForgetAll(before, list[..0]) == before;
      while closed < |list|
        invariant closed <= ClosedPrefix(list, fails)
        invariant Model() == ForgetAll(before, list[..closed])
      {
        PrefixReaches(list, fails, closed);
        ForgetOneMore(before, list, closed);
        var ok := CloseWorkspace(list[closed].workspace, fails);
        if !ok {
          return;
        }
        closed := closed + 1;
      }
    }

    method ReapCoreApprovals(now: nat) returns (expired: bool)
      modifies this`coreApprovals
      ensures Model() == old(Model()).(state := old(Contents()).(core := LiveCore(old(coreApprovals), now)))
      ensures expired <==> coreApprovals != old(coreApprovals)
    {
      var late := set id | id in coreApprovals && CoreExpired(coreApprovals[id], now);
      coreApprovals := coreApprovals - late;
      expired := late != {};
      assert coreApprovals == LiveCore(old(coreApprovals), now);
      if id :| id in late {
        assert id !in coreApprovals;
      }
    }

    /** Drops late attempts with their sessions; their workspaces are left to be closed. */
    method ReapLateAttempts(now: nat) returns (workspaces: seq<Orphan>)
      modifies this`attempts, this`activeSessions
      ensures attempts == old(attempts) - LateAttempts(old(Contents()), now)
      ensures activeSessions == old(activeSessions) - AttemptSessions(old(attempts), LateAttempts(old(Contents()), now))
      ensures workspaces == ReapedAttempts(old(Contents()), now)
    {
      ghost var before, active := attempts, activeSessions;
      var late := set id | id in attempts && now > attempts[id].hardExpires;
      var ids := KeysInOrder(late);
      workspaces := [];
      AttemptsStart(before, active, ids);
      for n := 0 to |ids|
        invariant |workspaces| == n
        invariant attempts == before - KeySet(ids[..n])
        invariant activeSessions == active - AttemptSessions(before, KeySet(ids[..n]))
        invariant forall i | 0 <= i < n :: ids[i] in before && workspaces[i] == Orphan(before[ids[i]].session, before[ids[i]].workspace)
      {
        AttemptsNext(before, active, ids, n, late);
        var attempt := attempts[ids[n]];
        attempts := attempts - {ids[n]};
        activeSessions := activeSessions - {attempt.session};
        workspaces := workspaces + [Orphan(attempt.session, attempt.workspace)];
      }
      AllKeys(ids, late);
      AttemptsListed(old(Contents()), now, ids, workspaces);
    }

    method ReapLateApp(now: nat) returns (workspaces: seq<Orphan>)
      modifies this`appApprovals, this`activeSessions
      ensures appApprovals == old(appApprovals) - LateApp(old(Contents()), now)
      ensures activeSessions == old(activeSessions) - AppSessions(old(appApprovals), LateApp(old(Contents()), now))
      ensures workspaces == ReapedApp(old(Contents()), now)
    {
      ghost var before, active := appApprovals, activeSessions;
      var late := set id | id in appApprovals && now > appApprovals[id].expires;
      var ids := KeysInOrder(late);
      workspaces := [];
      AppStart(before, active, ids);
      for n := 0 to |ids|
        invariant |workspaces| == n
        invariant appApprovals == before - KeySet(ids[..n])
        invariant activeSessions == active - AppSessions(before, KeySet(ids[..n]))
        invariant forall i | 0 <= i < n :: ids[i] in before && workspaces[i] == Orphan(before[ids[i]].session, before[ids[i]].workspace)
      {
        AppNext(before, active, ids, n, late);
        var approval := appApprovals[ids[n]];
        appApprovals := appApprovals - {ids[n]};
        activeSessions := activeSessions - {approval.session};
        workspaces := workspaces + [Orphan(approval.session, approval.workspace)];
      }
      AllKeys(ids, late);
      AppListed(old(Contents()), now, ids, workspaces);
    }

    method ReapState(now: nat) returns (workspaces: seq<Orphan>)
      modifies this`attempts, this`appApprovals, this`activeSessions
      ensures Model() == old(Model()).(state := Reaped(old(Contents()), now))
      ensures workspaces == ReapedWorkspaces(old(Contents()), now)
    {
      ghost var s := Contents();
      var fromAttempts := ReapLateAttempts(now);
      AppUntouched(s, Contents(), now);
      var fromApp := ReapLateApp(now);
      workspaces := fromAttempts + fromApp;
      assert activeSessions == s.active - LateSessions(s, now);
    }

    /** Reap, close what is left over, and persist what changed. */
    method SweepExpired(now: nat, faults: Faults) returns (result: Result<(), RuntimeError>)
      modifies this, store
      ensures (Model(), result) == Sweep(old(Model()), now, faults)
    {
      var approvalsExpired := ReapCoreApprovals(now);
      var workspaces := orphanedWorkspaces;
      var reaped := ReapState(now);
      workspaces := workspaces + reaped;
      var closed := CloseListed(workspaces, faults.closes);
      if closed < |workspaces| {
        orphanedWorkspaces := workspaces;
        return Err(WorkspaceUnavailable);
      }
      orphanedWorkspaces := [];
      if workspaces != [] || approvalsExpired {
        var ok := PersistState(faults.sweepPersist);
        if !ok {
          return Err(PersistenceFailed);
        }
      }
      return Ok(());
    }

    /** Minting skips identifiers in use. */
    ghost predicate Mintable()
      reads this
    {
      nextId !in attempts && nextId !in appApprovals
    }

    /** Remove an attempt that could not be persisted and close its workspace, best effort. */
    method UndoAttempt(ghost before: Machine, id: Id, attempt: Attempt, fails: set<WorkspaceId>)
      requires id !in before.state.attempts
      requires Model() == WithAttempt(before, id, attempt).(owned := before.owned + {attempt.workspace})
      modifies this`attempts, this`activeSessions, this`owned, this`leaked
      ensures Model() == RolledBack(before, attempt.workspace, attempt.session, fails)
    {
      activeSessions := activeSessions - {attempt.session};
      attempts := attempts - {id};
      assert attempts == before.state.attempts;
      assert activeSessions == before.state.active - {attempt.session};
      RollBackWorkspace(attempt.workspace, fails);
    }

    method HoldAttempt(id: Id, attempt: Attempt, faults: Faults) returns (ok: bool)
      requires id !in attempts
      modifies this, store
      ensures (Model(), ok) == BootstrapRuntime.HoldAttempt(old(Model()), id, attempt, faults)
    {
      ghost var before := Model();
      owned := owned + {attempt.workspace};
      activeSessions := activeSessions + {attempt.session};
      attempts := attempts[id := attempt];
      assert Model() == WithAttempt(before, id, attempt).(owned := before.owned + {attempt.workspace});
      ok := PersistState(faults.persist);
      if !ok {
        UndoAttempt(before, id, attempt, faults.closes);
      }
    }

    method UndoApproval(ghost before: Machine, id: Id, approval: AppApproval, fails: set<WorkspaceId>)
      requires id !in before.state.app
      requires Model() == WithApp(before, id, approval).(owned := before.owned + {approval.workspace})
      modifies this`appApprovals, this`activeSessions, this`owned, this`leaked
      ensures Model() == RolledBack(before, approval.workspace, approval.session, fails)
    {
      activeSessions := activeSessions - {approval.session};
      appApprovals := appApprovals - {id};
      assert appApprovals == before.state.app;
      assert activeSessions == before.state.active - {approval.session};
      RollBackWorkspace(approval.workspace, fails);
    }

    method HoldApproval(id: Id, approval: AppApproval, faults: Faults) returns (ok: bool)
      requires id !in appApprovals
      modifies this, store
      ensures (Model(), ok) == BootstrapRuntime.HoldApproval(old(Model()), id, approval, faults)
    {
      ghost var before := Model();
      owned := owned + {approval.workspace};
      activeSessions := activeSessions + {approval.session};
      appApprovals := appApprovals[id := approval];
      assert Model() == WithApp(before, id, approval).(owned := before.owned + {approval.workspace});
      ok := PersistState(faults.persist);
      if !ok {
        UndoApproval(before, id, approval, faults.closes);
      }
    }

    /** Both deadlines, then the hidden workspace; only creation itself can fail otherwise. */
    method PrepareAttempt(now: nat, creation: Creation) returns (w: Result<WorkspaceId, RuntimeError>)
      ensures w == if now + HARD_LIFETIME > U64_MAX then Err(InvalidField) else Create(creation)
    {
      var expires := CheckedAdd(now, CODE_TTL);
      if expires.None? {
        return Err(InvalidField);
      }
      var hardExpires := CheckedAdd(now, HARD_LIFETIME);
      if hardExpires.None? {
        return Err(InvalidField);
      }
      return Create(creation);
    }

    method OpenAttempt(peer: Peer, q: Request, code: Code, now: nat, creation: Creation, faults: Faults)
      returns (result: Result<Challenge, RuntimeError>)
      requires Mintable()
      modifies this, store
      ensures (Model(), result) == BootstrapRuntime.OpenAttempt(old(Model()), peer, q, code, now, creation, faults)
    {
      var bootstrap := nextId;
      nextId := nextId + 3;
      var w := PrepareAttempt(now, creation);
      if w.Err? {
        return Err(w.error);
      }
      var attempt := Attempt(peer, bootstrap + 1, bootstrap + 2, code, q.appCsr, q.coreBinding, q.session, q.generation,
                             w.value, now + CODE_TTL, now + HARD_LIFETIME, 0);
      assert Model() == old(Model()).(nextId := old(nextId) + 3);
      OpenedAttempt(old(Model()), peer, q, code, now, creation, faults, attempt);
      var ok := HoldAttempt(bootstrap, attempt, faults);
      return if ok then Ok(Challenge(bootstrap, bootstrap + 2, now + CODE_TTL)) else Err(PersistenceFailed);
    }

    /** The close of a workspace whose state could not be persisted; its failure is not reported. */
    method RollBackWorkspace(w: WorkspaceId, fails: set<WorkspaceId>)
      modifies this`owned, this`leaked
      ensures Model() == if CloseSucceeds(w, fails) then Forget(old(Model()), w) else old(Model()).(leaked := old(leaked) + {w})
    {
      var closed := CloseWorkspace(w, fails);
      if !closed {
        leaked := leaked + {w};
      }
    }

    method Start(peer: Peer, request: Option<Request>, code: Code, now: nat, creation: Creation, faults: Faults)
      returns (result: Result<Challenge, RuntimeError>)
      requires Mintable()
      modifies this, store
      ensures (Model(), result) == BootstrapRuntime.Start(old(Model()), peer, request, code, now, creation, faults)
    {
      if request.None? {
        return Err(InvalidField);
      }
      var q := request.value;
      if q.session != session || q.appCsr == 0 || q.coreBinding == 0 || q.generation == 0 {
        return Err(AuthorityMismatch);
      }
      SweepOnlyDrops(Model(), now, faults);
      var swept := SweepExpired(now, faults);
      if swept.Err? {
        return Err(swept.error);
      }
      result := BeginSwept(peer, q, code, now, creation, faults);
    }

    method BeginSwept(peer: Peer, q: Request, code: Code, now: nat, creation: Creation, faults: Faults)
      returns (result: Result<Challenge, RuntimeError>)
      requires Mintable()
      modifies this, store
      ensures (Model(), result) == Begin(old(Model()), peer, q, code, now, creation, faults)
    {
      if |attempts| >= MAX_ACTIVE_BOOTSTRAPS || |coreApprovals| + |appApprovals| >= MAX_APPROVALS {
        return Err(CapacityExhausted);
      }
      if q.session in activeSessions {
        return Err(AlreadyActive);
      }
      peerStarts := PruneStarts(peerStarts, now);
      var history := if peer in peerStarts then peerStarts[peer] else [];
      if |history| >= MAX_PEER_STARTS {
        return Err(PeerRateLimited);
      }
      peerStarts := peerStarts[peer := history + [now]];
      result := OpenAttempt(peer, q, code, now, creation, faults);
    }

    method Abort(id: Id, faults: Faults) returns (result: Result<(), RuntimeError>)
      modifies this, store
      ensures (Model(), result) == BootstrapRuntime.Abort(old(Model()), id, faults)
    {
      if id !in attempts {
        return Ok(());
      }
      var attempt := attempts[id];
      attempts := attempts - {id};
      activeSessions := activeSessions - {attempt.session};
      var closed := CloseWorkspace(attempt.workspace, faults.closes);
      if !closed {
        orphanedWorkspaces := orphanedWorkspaces + [Orphan(attempt.session, attempt.workspace)];
      }
      var ok := PersistState(faults.persist);
      if !ok {
        return Err(PersistenceFailed);
      }
      return if closed then Ok(()) else Err(WorkspaceUnavailable);
    }

    method EndAttempt(id: Id, error: RuntimeError, faults: Faults) returns (answer: RuntimeError)
      requires id in attempts
      modifies this, store
      ensures (Model(), answer) == BootstrapRuntime.EndAttempt(old(Model()), id, error, faults)
    {
      var attempt := attempts[id];
      var closed := CloseWorkspace(attempt.workspace, faults.closes);
      if !closed {
        return WorkspaceUnavailable;
      }
      activeSessions := activeSessions - {attempt.session};
      attempts := attempts - {id};
      var ok := PersistState(faults.persist);
      return if ok then error else PersistenceFailed;
    }

    method CountWrongCode(id: Id, faults: Faults) returns (answer: RuntimeError)
      requires id in attempts
      modifies this, store
      ensures (Model(), answer) == BootstrapRuntime.CountWrongCode(old(Model()), id, faults)
    {
      var failures := Counted(attempts[id].failures);
      attempts := attempts[id := attempts[id].(failures := failures)];
      if failures >= MAX_CODE_FAILURES {
        answer := EndAttempt(id, CodeRateLimited, faults);
        return;
      }
      var ok := PersistState(faults.persist);
      return if ok then CodeMismatch else PersistenceFailed;
    }

    /** Close, drop, issue, record the approval, persist, in that order. */
    method IssueCertificate(id: Id, now: nat, certificate: Option<Certificate>, faults: Faults)
      returns (result: Result<Material, RuntimeError>)
      requires id in attempts && CloseSucceeds(attempts[id].workspace, faults.closes)
      modifies this, store
      ensures (Model(), result) == IssueFor(old(Model()), id, now, certificate, faults)
    {
      var attempt := attempts[id];
      var _ := CloseWorkspace(attempt.workspace, faults.closes);
      activeSessions := activeSessions - {attempt.session};
      attempts := attempts - {id};
      if certificate.None? {
        return Err(PersistenceFailed);
      }
      var recoveryExpires := CheckedAdd(now, RECOVERY_TTL);
      if recoveryExpires.None? {
        return Err(InvalidField);
      }
      var c := certificate.value;
      var material := Material(attempt.approval, c.identity, c.chain, c.notAfter);
      coreApprovals := coreApprovals[attempt.approval := CoreApproval(c.identity, attempt.appCsr, attempt.coreBinding, attempt.session,
                                                                      attempt.generation, false, recoveryExpires.value, material)];
      var ok := PersistState(faults.persist);
      return if ok then Ok(material) else Err(PersistenceFailed);
    }

    method Submit(peer: Peer, id: Id, challenge: Id, code: Option<Code>, now: nat, certificate: Option<Certificate>, faults: Faults)
      returns (result: Result<Material, RuntimeError>)
      modifies this, store
      ensures (Model(), result) == BootstrapRuntime.Submit(old(Model()), peer, id, challenge, code, now, certificate, faults)
    {
      if code.None? {
        return Err(InvalidField);
      }
      if id !in attempts {
        return Err(NotFound);
      }
      var attempt := attempts[id];
      if attempt.peer != peer || attempt.challenge != challenge {
        return Err(AuthorityMismatch);
      }
      if now > attempt.expires || now > attempt.hardExpires {
        var error := EndAttempt(id, Expired, faults);
        return Err(error);
      }
      if attempt.code != code.value {
        var error := CountWrongCode(id, faults);
        return Err(error);
      }
      if !CloseSucceeds(attempt.workspace, faults.closes) {
        return Err(WorkspaceUnavailable);
      }
      result := IssueCertificate(id, now, certificate, faults);
    }

    method Reconcile(approval: Id, coreBinding: Digest, session: Session, now: nat, faults: Faults)
      returns (result: Result<Material, RuntimeError>)
      modifies this, store
      ensures (Model(), result) == BootstrapRuntime.Reconcile(old(Model()), approval, coreBinding, session, now, faults)
    {
      var swept := SweepExpired(now, faults);
      if swept.Err? {
        return Err(swept.error);
      }
      if approval !in coreApprovals {
        return Err(NotFound);
      }
      var found := coreApprovals[approval];
      if found.coreBinding != coreBinding || found.session != session {
        return Err(AuthorityMismatch);
      }
      return Ok(found.issued);
    }

    method RemoveLapsed(approval: Id, faults: Faults) returns (error: RuntimeError)
      modifies this`coreApprovals, store
      ensures (Model(), error) == BootstrapRuntime.RemoveLapsed(old(Model()), approval, faults)
    {
      coreApprovals := coreApprovals - {approval};
      var ok := PersistState(faults.persist);
      return if ok then Expired else PersistenceFailed;
    }

    method AuthorizeFirstApp(core: Digest, approval: Id, appCsr: Digest, now: nat, faults: Faults)
      returns (result: Result<nat, RuntimeError>)
      modifies this`coreApprovals, store
      ensures (Model(), result) == BootstrapRuntime.AuthorizeFirstApp(old(Model()), core, approval, appCsr, now, faults)
    {
      if approval in coreApprovals && !coreApprovals[approval].confirmed && now > coreApprovals[approval].recoveryExpires {
        var error := RemoveLapsed(approval, faults);
        return Err(error);
      }
      if approval !in coreApprovals {
        return Err(NotFound);
      }
      var found := coreApprovals[approval];
      if found.confirmed || found.coreIdentity != core || found.appCsr != appCsr {
        return Err(AuthorityMismatch);
      }
      return Ok(found.generation);
    }

    method ConfirmFirstApp(core: Digest, approval: Id, appCsr: Digest, generation: nat, now: nat, faults: Faults)
      returns (result: Result<(), RuntimeError>)
      modifies this`coreApprovals, this`kept, store
      ensures (Model(), result) == BootstrapRuntime.ConfirmFirstApp(old(Model()), core, approval, appCsr, generation, now, faults)
    {
      if approval in coreApprovals && !coreApprovals[approval].confirmed && now > coreApprovals[approval].recoveryExpires {
        var error := RemoveLapsed(approval, faults);
        return Err(error);
      }
      if approval !in coreApprovals {
        return Err(NotFound);
      }
      var found := coreApprovals[approval];
      if found.coreIdentity != core || found.appCsr != appCsr || found.generation != generation {
        return Err(AuthorityMismatch);
      }
      if !found.confirmed {
        coreApprovals := coreApprovals[approval := found.(confirmed := true, recoveryExpires := 0)];
        var ok := PersistState(faults.persist);
        if !ok {
          return Err(PersistenceFailed);
        }
        kept := kept[approval := Confirmed(found)];
      }
      return Ok(());
    }

    method OpenApproval(core: Digest, q: Request, code: Code, now: nat, creation: Creation, faults: Faults)
      returns (result: Result<Challenge, RuntimeError>)
      requires Mintable()
      modifies this, store
      ensures (Model(), result) == BootstrapRuntime.OpenApproval(old(Model()), core, q, code, now, creation, faults)
    {
      var approval := nextId;
      nextId := nextId + 2;
      var expires := CheckedAdd(now, CODE_TTL);
      var w := if expires.None? then Err(InvalidField) else Create(creation);
      if w.Err? {
        return Err(w.error);
      }
      var pending := AppApproval(core, q.appCsr, q.coreBinding, q.session, q.generation, approval + 1, code, w.value, expires.value, 0);
      assert Model() == old(Model()).(nextId := old(nextId) + 2);
      OpenedApproval(old(Model()), core, q, code, now, creation, faults, pending);
      var ok := HoldApproval(approval, pending, faults);
      return if ok then Ok(Challenge(approval, approval + 1, expires.value)) else Err(PersistenceFailed);
    }

    method BeginApp(core: Digest, q: Request, code: Code, now: nat, creation: Creation, faults: Faults)
      returns (result: Result<Challenge, RuntimeError>)
      requires Mintable()
      modifies this, store
      ensures (Model(), result) == BootstrapRuntime.BeginApp(old(Model()), core, q, code, now, creation, faults)
    {
      if !exists id | id in coreApprovals :: Approves(coreApprovals[id], core, q) {
        return Err(AuthorityMismatch);
      }
      if q.session in activeSessions {
        return Err(AlreadyActive);
      }
      if |appApprovals| >= MAX_APPROVALS {
        return Err(CapacityExhausted);
      }
      result := OpenApproval(core, q, code, now, creation, faults);
    }

    method StartApp(core: Digest, q: Request, code: Code, now: nat, creation: Creation, faults: Faults)
      returns (result: Result<Challenge, RuntimeError>)
      requires Mintable()
      modifies this, store
      ensures (Model(), result) == BootstrapRuntime.StartApp(old(Model()), core, q, code, now, creation, faults)
    {
      if !ValidSession(q.session) || q.session != session || q.appCsr == 0 || q.coreBinding == 0 || q.generation == 0 {
        return Err(InvalidField);
      }
      SweepOnlyDrops(Model(), now, faults);
      var swept := SweepExpired(now, faults);
      if swept.Err? {
        return Err(swept.error);
      }
      result := BeginApp(core, q, code, now, creation, faults);
    }

    method EndApp(id: Id, faults: Faults) returns (error: Option<RuntimeError>)
      requires id in appApprovals
      modifies this, store
      ensures (Model(), error) == BootstrapRuntime.EndApp(old(Model()), id, faults)
    {
      var approval := appApprovals[id];
      var closed := CloseWorkspace(approval.workspace, faults.closes);
      if !closed {
        return Some(WorkspaceUnavailable);
      }
      activeSessions := activeSessions - {approval.session};
      appApprovals := appApprovals - {id};
      var ok := PersistState(faults.persist);
      return if ok then None else Some(PersistenceFailed);
    }

    method CountWrongAppCode(id: Id, faults: Faults) returns (answer: RuntimeError)
      requires id in appApprovals
      modifies this, store
      ensures (Model(), answer) == BootstrapRuntime.CountWrongAppCode(old(Model()), id, faults)
    {
      var failures := Counted(appApprovals[id].failures);
      appApprovals := appApprovals[id := appApprovals[id].(failures := failures)];
      if failures >= MAX_CODE_FAILURES {
        var error := EndApp(id, faults);
        return if error.Some? then error.value else CodeRateLimited;
      }
      var ok := PersistState(faults.persist);
      return if ok then CodeMismatch else PersistenceFailed;
    }

    method SubmitApp(core: Digest, id: Id, challenge: Id, code: Option<Code>, csrMatches: bool, appCsr: Digest, now: nat, faults: Faults)
      returns (result: Result<AppApproval, RuntimeError>)
      modifies this, store
      ensures (Model(), result) == BootstrapRuntime.SubmitApp(old(Model()), core, id, challenge, code, csrMatches, appCsr, now, faults)
    {
      if !csrMatches || code.None? {
        return Err(InvalidField);
      }
      if id !in appApprovals {
        return Err(NotFound);
      }
      var approval := appApprovals[id];
      if approval.coreIdentity != core || approval.challenge != challenge || approval.appCsr != appCsr {
        return Err(AuthorityMismatch);
      }
      if now <= approval.expires && approval.code != code.value {
        var answer := CountWrongAppCode(id, faults);
        return Err(answer);
      }
      var error := EndApp(id, faults);
      if error.Some? {
        return Err(error.value);
      }
      return if now > approval.expires then Err(Expired) else Ok(approval);
    }
  }

  lemma OpenedAttempt(m: Machine, peer: Peer, q: Request, code: Code, now: nat, creation: Creation, faults: Faults, a: Attempt)
    requires now + HARD_LIFETIME <= U64_MAX && Create(creation).Ok? && a == NewAttempt(m, peer, q, code, now, Create(creation).value)
    ensures var (held, ok) := HoldAttempt(m.(nextId := m.nextId + 3), m.nextId, a, faults);
      OpenAttempt(m, peer, q, code, now, creation, faults)
      == (held, if ok then Ok(Challenge(m.nextId, m.nextId + 2, now + CODE_TTL)) else Err(PersistenceFailed))
  {
  }

  lemma OpenedApproval(m: Machine, core: Digest, q: Request, code: Code, now: nat, creation: Creation, faults: Faults, a: AppApproval)
    requires now + CODE_TTL <= U64_MAX && Create(creation).Ok? && a == NewApproval(m, core, q, code, now, Create(creation).value)
    ensures var (held, ok) := HoldApproval(m.(nextId := m.nextId + 2), m.nextId, a, faults);
      OpenApproval(m, core, q, code, now, creation, faults)
      == (held, if ok then Ok(Challenge(m.nextId, m.nextId + 1, now + CODE_TTL)) else Err(PersistenceFailed))
  {
  }

  lemma SweepOnlyDrops(m: Machine, now: nat, faults: Faults)
    ensures var n := Sweep(m, now, faults).0;
      n.nextId == m.nextId && n.state.attempts.Keys <= m.state.attempts.Keys && n.state.app.Keys <= m.state.app.Keys
  {
  }

  function KeySet(ids: seq<Id>): set<Id> {
    set id | id in ids
  }

  lemma NextKey(ids: seq<Id>, n: nat, keys: set<Id>)
    requires n < |ids| && Ascending(ids) && forall id :: id in ids <==> id in keys
    ensures ids[n] in keys && ids[n] !in KeySet(ids[..n])
    ensures KeySet(ids[..n + 1]) == KeySet(ids[..n]) + {ids[n]}
  {
    assert ids[n] in ids;
    assert ids[..n + 1] == ids[..n] + [ids[n]];
  }

  lemma AttemptsStart(m: map<Id, Attempt>, active: set<Session>, ids: seq<Id>)
    ensures m == m - KeySet(ids[..0]) && active == active - AttemptSessions(m, KeySet(ids[..0]))
  {
    assert KeySet(ids[..0]) == {};
  }

  lemma AttemptsNext(m: map<Id, Attempt>, active: set<Session>, ids: seq<Id>, n: nat, keys: set<Id>)
    requires n < |ids| && Ascending(ids) && (forall id :: id in ids <==> id in keys) && keys <= m.Keys
    ensures ids[n] in m - KeySet(ids[..n]) && (m - KeySet(ids[..n]))[ids[n]] == m[ids[n]]
    ensures m - KeySet(ids[..n + 1]) == m - KeySet(ids[..n]) - {ids[n]}
    ensures active - AttemptSessions(m, KeySet(ids[..n + 1])) == active - AttemptSessions(m, KeySet(ids[..n])) - {m[ids[n]].session}
  {
    NextKey(ids, n, keys);
    assert AttemptSessions(m, KeySet(ids[..n]) + {ids[n]}) == AttemptSessions(m, KeySet(ids[..n])) + {m[ids[n]].session};
  }

  lemma AppStart(m: map<Id, AppApproval>, active: set<Session>, ids: seq<Id>)
    ensures m == m - KeySet(ids[..0]) && active == active - AppSessions(m, KeySet(ids[..0]))
  {
    assert KeySet(ids[..0]) == {};
  }

  lemma AppNext(m: map<Id, AppApproval>, active: set<Session>, ids: seq<Id>, n: nat, keys: set<Id>)
    requires n < |ids| && Ascending(ids) && (forall id :: id in ids <==> id in keys) && keys <= m.Keys
    ensures ids[n] in m - KeySet(ids[..n]) && (m - KeySet(ids[..n]))[ids[n]] == m[ids[n]]
    ensures m - KeySet(ids[..n + 1]) == m - KeySet(ids[..n]) - {ids[n]}
    ensures active - AppSessions(m, KeySet(ids[..n + 1])) == active - AppSessions(m, KeySet(ids[..n])) - {m[ids[n]].session}
  {
    NextKey(ids, n, keys);
    assert AppSessions(m, KeySet(ids[..n]) + {ids[n]}) == AppSessions(m, KeySet(ids[..n])) + {m[ids[n]].session};
  }

  lemma AllKeys(ids: seq<Id>, keys: set<Id>)
    requires forall id :: id in ids <==> id in keys
    ensures ids[..|ids|] == ids && KeySet(ids) == keys
  {
  }

  lemma AttemptsListed(s: State, now: nat, ids: seq<Id>, workspaces: seq<Orphan>)
    requires ids == SortedKeys(LateAttempts(s, now)) && |workspaces| == |ids|
    requires forall i | 0 <= i < |ids| :: ids[i] in s.attempts && workspaces[i] == Orphan(s.attempts[ids[i]].session, s.attempts[ids[i]].workspace)
    ensures workspaces == ReapedAttempts(s, now)
  {
  }

  lemma AppListed(s: State, now: nat, ids: seq<Id>, workspaces: seq<Orphan>)
    requires ids == SortedKeys(LateApp(s, now)) && |workspaces| == |ids|
    requires forall i | 0 <= i < |ids| :: ids[i] in s.app && workspaces[i] == Orphan(s.app[ids[i]].session, s.app[ids[i]].workspace)
    ensures workspaces == ReapedApp(s, now)
  {
  }

  lemma AppUntouched(s: State, t: State, now: nat)
    requires t.app == s.app
    ensures LateApp(t, now) == LateApp(s, now) && ReapedApp(t, now) == ReapedApp(s, now)
  {
    assert LateApp(t, now) == LateApp(s, now);
  }

  lemma PrefixReaches(list: seq<Orphan>, fails: set<WorkspaceId>, k: nat)
    requires k < |list| && k <= ClosedPrefix(list, fails)
    ensures k < ClosedPrefix(list, fails) <==> CloseSucceeds(list[k].workspace, fails)
  {
  }

  lemma ForgetOneMore(m: Machine, list: seq<Orphan>, k: nat)
    requires k < |list|
    ensures ForgetAll(m, list[..k + 1]) == Forget(ForgetAll(m, list[..k]), list[k].workspace)
  {
    assert list[..k + 1] == list[..k] + [list[k]];
    assert WorkspacesOf(list[..k + 1]) == WorkspacesOf(list[..k]) + {list[k].workspace};
  }
}
