/** Exactly when a reported confirmation of the bootstrap runtime survives restarts. */
module BootstrapRuntimeDurability {
  import opened Common
  import opened Sessions
  import opened StartLimiter
  import opened BootstrapRuntime
  import opened BootstrapRuntimeCodec
  import opened BootstrapRuntimeRuns
  import BootstrapRuntimeTheorems

  // ---------------------------------------------------------------- the file after one operation

  /** The file holds exactly what the process would write now. */
  ghost predicate Mirrors(m: Machine) {
    if m.file.None? then m.state.attempts == map[] && m.state.app == map[] && m.state.core == map[]
    else m.file.value.records == Records(m.state)
  }

  predicate SameWritten(s: State, t: State) {
    s.attempts == t.attempts && s.app == t.app && s.core == t.core
  }

  /** Confirmed approvals stay as they are. */
  predicate Grows(before: map<Id, CoreApproval>, after: map<Id, CoreApproval>) {
    forall id | id in before && before[id].confirmed :: id in after && after[id] == before[id]
  }

  /** One operation leaves the file alone, or ends with the file mirroring memory. */
  ghost predicate Follows(m: Machine, n: Machine) {
    (n.file == m.file || Mirrors(n)) && Grows(m.state.core, n.state.core)
  }

  /** As above, where an unchanged file also means that nothing to be written has changed. */
  ghost predicate Settles(m: Machine, n: Machine) {
    ((n.file == m.file && SameWritten(m.state, n.state)) || Mirrors(n)) && n.state.core == m.state.core
  }

  lemma SameWrittenMirrors(m: Machine, n: Machine)
    requires Mirrors(m) && n.file == m.file && SameWritten(m.state, n.state)
    ensures Mirrors(n)
  {
  }

  lemma FollowsThenSettles(m: Machine, k: Machine, n: Machine)
    requires Follows(m, k) && Settles(k, n)
    ensures Follows(m, n)
  {
    if Mirrors(k) && !Mirrors(n) {
      SameWrittenMirrors(k, n);
    }
  }

  lemma PersistMirrors(m: Machine, fault: PersistFault)
    ensures var (n, ok) := PersistMachine(m, fault);
      && n == m.(file := n.file)
      && (n.file == m.file || Mirrors(n))
      && (ok ==> Mirrors(n))
  {
    PersistOutcome(m, fault);
  }

  /** What is changed in memory first and then persisted. */
  lemma ChangedThenPersisted(m: Machine, changed: Machine, fault: PersistFault)
    requires changed.file == m.file && Grows(m.state.core, changed.state.core)
    ensures Follows(m, PersistMachine(changed, fault).0)
  {
    PersistMirrors(changed, fault);
  }

  lemma SweepFollows(m: Machine, now: nat, faults: Faults)
    ensures Follows(m, Sweep(m, now, faults).0)
  {
    SweepShape(m, now, faults);
    ChangedThenPersisted(m, Cleared(Live(m, now), DueOf(Live(m, now), now), now), faults.sweepPersist);
  }

  lemma HeldSettles(before: Machine, after: Machine, w: WorkspaceId, session: Session, faults: Faults)
    requires after.file == before.file && after.state.core == before.state.core
    ensures Settles(before, KeepOrRollBack(before, after, w, session, faults).0)
  {
    var created := after.(owned := after.owned + {w});
    PersistMirrors(created, faults.persist);
    if !PersistMachine(created, faults.persist).1 {
      var undone := RolledBack(before, w, session, faults.closes);
      assert undone.file == before.file && SameWritten(before.state, undone.state);
    }
  }

  lemma OpenAttemptSettles(m: Machine, peer: Peer, q: Request, code: Code, now: nat, creation: Creation, faults: Faults)
    ensures Settles(m, OpenAttempt(m, peer, q, code, now, creation, faults).0)
  {
    OpenAttemptShape(m, peer, q, code, now, creation, faults);
    if Create(creation).Ok? {
      var minted, a := m.(nextId := m.nextId + 3), NewAttempt(m, peer, q, code, now, Create(creation).value);
      HeldSettles(minted, WithAttempt(minted, m.nextId, a), a.workspace, a.session, faults);
    }
  }

  lemma OpenApprovalSettles(m: Machine, core: Digest, q: Request, code: Code, now: nat, creation: Creation, faults: Faults)
    ensures Settles(m, OpenApproval(m, core, q, code, now, creation, faults).0)
  {
    OpenApprovalShape(m, core, q, code, now, creation, faults);
    if Create(creation).Ok? {
      var minted, a := m.(nextId := m.nextId + 2), NewApproval(m, core, q, code, now, Create(creation).value);
      HeldSettles(minted, WithApp(minted, m.nextId, a), a.workspace, a.session, faults);
    }
  }

  lemma BeginSettles(m: Machine, peer: Peer, q: Request, code: Code, now: nat, creation: Creation, faults: Faults)
    ensures Settles(m, Begin(m, peer, q, code, now, creation, faults).0)
  {
    var starts := Record(Prune(m.state.starts, now), peer, now);
    OpenAttemptSettles(m.(state := m.state.(starts := starts)), peer, q, code, now, creation, faults);
  }

  lemma StartFollows(m: Machine, peer: Peer, request: Option<Request>, code: Code, now: nat, creation: Creation, faults: Faults)
    ensures Follows(m, Start(m, peer, request, code, now, creation, faults).0)
  {
    if RequestRefusal(m, request).None? {
      var (swept, result) := Sweep(m, now, faults);
      SweepFollows(m, now, faults);
      if result.Ok? {
        BeginSettles(swept, peer, request.value, code, now, creation, faults);
        FollowsThenSettles(m, swept, Begin(swept, peer, request.value, code, now, creation, faults).0);
      }
    }
  }

  lemma StartAppFollows(m: Machine, core: Digest, q: Request, code: Code, now: nat, creation: Creation, faults: Faults)
    ensures Follows(m, StartApp(m, core, q, code, now, creation, faults).0)
  {
    var (swept, result) := Sweep(m, now, faults);
    SweepFollows(m, now, faults);
    OpenApprovalSettles(swept, core, q, code, now, creation, faults);
    FollowsThenSettles(m, swept, OpenApproval(swept, core, q, code, now, creation, faults).0);
  }

  lemma AbortFollows(m: Machine, id: Id, faults: Faults)
    ensures Follows(m, Abort(m, id, faults).0)
  {
    if id in m.state.attempts {
      var a, dropped := m.state.attempts[id], DropAttempt(m, id);
      ChangedThenPersisted(m, Forget(dropped, a.workspace), faults.persist);
      ChangedThenPersisted(m, dropped.(state := dropped.state.(orphans := dropped.state.orphans + [Orphan(a.session, a.workspace)])), faults.persist);
    }
  }

  lemma EndAttemptFollows(m: Machine, id: Id, error: RuntimeError, faults: Faults)
    requires id in m.state.attempts
    ensures Follows(m, EndAttempt(m, id, error, faults).0)
  {
    ChangedThenPersisted(m, DropAttempt(Forget(m, m.state.attempts[id].workspace), id), faults.persist);
  }

  lemma EndAppFollows(m: Machine, id: Id, faults: Faults)
    requires id in m.state.app
    ensures Follows(m, EndApp(m, id, faults).0)
  {
    ChangedThenPersisted(m, DropApp(Forget(m, m.state.app[id].workspace), id), faults.persist);
  }

  function CountedAttempt(m: Machine, id: Id): Machine
    requires id in m.state.attempts
  {
    var a := m.state.attempts[id].(failures := Counted(m.state.attempts[id].failures));
    m.(state := m.state.(attempts := m.state.attempts[id := a]))
  }

  function CountedApp(m: Machine, id: Id): Machine
    requires id in m.state.app
  {
    var a := m.state.app[id].(failures := Counted(m.state.app[id].failures));
    m.(state := m.state.(app := m.state.app[id := a]))
  }

  lemma SameStart(m: Machine, changed: Machine, n: Machine)
    requires changed.file == m.file && changed.state.core == m.state.core && Follows(changed, n)
    ensures Follows(m, n)
  {
  }

  lemma CountWrongCodeFollows(m: Machine, id: Id, faults: Faults)
    requires id in m.state.attempts
    ensures Follows(m, CountWrongCode(m, id, faults).0)
  {
    var counted := CountedAttempt(m, id);
    ChangedThenPersisted(m, counted, faults.persist);
    EndAttemptFollows(counted, id, CodeRateLimited, faults);
    SameStart(m, counted, EndAttempt(counted, id, CodeRateLimited, faults).0);
  }

  lemma CountWrongAppCodeFollows(m: Machine, id: Id, faults: Faults)
    requires id in m.state.app
    ensures Follows(m, CountWrongAppCode(m, id, faults).0)
  {
    var counted := CountedApp(m, id);
    ChangedThenPersisted(m, counted, faults.persist);
    EndAppFollows(counted, id, faults);
    SameStart(m, counted, EndApp(counted, id, faults).0);
  }

  lemma IssueForFollows(m: Machine, id: Id, now: nat, certificate: Option<Certificate>, faults: Faults)
    requires id in m.state.attempts && m.state.attempts[id].approval !in m.state.core
    ensures Follows(m, IssueFor(m, id, now, certificate, faults).0)
  {
    var a := m.state.attempts[id];
    var dropped := DropAttempt(Forget(m, a.workspace), id);
    if certificate.Some? && now + RECOVERY_TTL <= U64_MAX {
      var c := certificate.value;
      var approval := CoreApproval(c.identity, a.appCsr, a.coreBinding, a.session, a.generation, false, now + RECOVERY_TTL,
                                   Material(a.approval, c.identity, c.chain, c.notAfter));
      ChangedThenPersisted(m, dropped.(state := dropped.state.(core := dropped.state.core[a.approval := approval])), faults.persist);
    }
  }

  lemma SubmitFollows(m: Machine, peer: Peer, id: Id, challenge: Id, code: Option<Code>, now: nat,
                      certificate: Option<Certificate>, faults: Faults)
    requires Inv(m)
    ensures Follows(m, Submit(m, peer, id, challenge, code, now, certificate, faults).0)
  {
    if SubmitRefusal(m, peer, id, challenge, code).None? {
      EndAttemptFollows(m, id, Expired, faults);
      CountWrongCodeFollows(m, id, faults);
      IssueForFollows(m, id, now, certificate, faults);
    }
  }

  lemma SubmitAppFollows(m: Machine, core: Digest, id: Id, challenge: Id, code: Option<Code>, csrMatches: bool, appCsr: Digest,
                         now: nat, faults: Faults)
    ensures Follows(m, SubmitApp(m, core, id, challenge, code, csrMatches, appCsr, now, faults).0)
  {
    if SubmitAppRefusal(m, core, id, challenge, code, csrMatches, appCsr).None? {
      EndAppFollows(m, id, faults);
      CountWrongAppCodeFollows(m, id, faults);
    }
  }

  lemma RemoveLapsedFollows(m: Machine, approval: Id, now: nat, faults: Faults)
    requires ApprovalLapsed(m, approval, now)
    ensures Follows(m, RemoveLapsed(m, approval, faults).0)
  {
    ChangedThenPersisted(m, m.(state := m.state.(core := m.state.core - {approval})), faults.persist);
  }

  lemma ConfirmFollows(m: Machine, op: Op)
    requires op.OpConfirm?
    ensures Follows(m, StepMachine(m, op))
  {
    if ApprovalLapsed(m, op.approval, op.now) {
      RemoveLapsedFollows(m, op.approval, op.now, op.faults);
    } else if op.approval in m.state.core && !m.state.core[op.approval].confirmed {
      ChangedThenPersisted(m, WithConfirmed(m, op.approval), op.faults.persist);
    }
  }

  lemma AuthorizeFollows(m: Machine, op: Op)
    requires op.OpAuthorize?
    ensures Follows(m, StepMachine(m, op))
  {
    if ApprovalLapsed(m, op.approval, op.now) {
      RemoveLapsedFollows(m, op.approval, op.now, op.faults);
    }
  }

  lemma StepFollows(m: Machine, op: Op)
    requires Inv(m) && !op.OpBoot? && !op.OpCrash?
    ensures Follows(m, StepMachine(m, op))
  {
    match op
    case OpStart(peer, request, secret, now, creation, faults) => StartFollows(m, peer, request, secret, now, creation, faults);
    case OpAbort(id, faults) => AbortFollows(m, id, faults);
    case OpSubmit(peer, id, challenge, code, now, certificate, faults) =>
      SubmitFollows(m, peer, id, challenge, code, now, certificate, faults);
    case OpReconcile(approval, coreBinding, session, now, faults) =>
      ReconcileOnlySweeps(m, approval, coreBinding, session, now, faults);
      SweepFollows(m, now, faults);
    case OpAuthorize(_, _, _, _, _) => AuthorizeFollows(m, op);
    case OpConfirm(_, _, _, _, _, _) => ConfirmFollows(m, op);
    case OpStartApp(core, q, secret, now, creation, faults) => StartAppFollows(m, core, q, secret, now, creation, faults);
    case OpSubmitApp(core, id, challenge, code, csrMatches, appCsr, now, faults) =>
      SubmitAppFollows(m, core, id, challenge, code, csrMatches, appCsr, now, faults);
  }

  // ---------------------------------------------------------------- confirmed approvals on disk

  /** The approvals a readable state file restores. */
  ghost function OnDisk(file: Option<Image>): map<Id, CoreApproval> {
    if file.Some? && AllValid(file.value.records) then RestoredCore(file.value.records) else map[]
  }

  function ConfirmedOf(core: map<Id, CoreApproval>): map<Id, CoreApproval> {
    map id | id in core && core[id].confirmed :: core[id]
  }

  lemma MirroredCore(m: Machine)
    requires Inv(m) && Mirrors(m)
    ensures OnDisk(m.file) == m.state.core
  {
    RecordsRestore(m.state, m.session);
  }

  lemma BootReadsDisk(m: Machine, session: Session, readFails: bool)
    requires Boot(m, session, readFails).Some?
    ensures Boot(m, session, readFails).value.state.core == OnDisk(m.file)
  {
  }

  /**
   * The approvals confirmed in memory whose confirmation no persist of this process has written since.
   * A persist that succeeds while there are any changes the file, because the file lacks them.
   */
  ghost function StillUnwritten(w: World, op: Op, unwritten: set<Id>): set<Id> {
    var n := Step(w, op);
    if !w.up || !n.up || n.m.file != w.m.file then {}
    else unwritten + (ConfirmedOf(n.m.state.core).Keys - ConfirmedOf(w.m.state.core).Keys)
  }

  ghost function Unwritten(w: World, ops: seq<Op>, unwritten: set<Id>): set<Id>
    decreases |ops|
  {
    if ops == [] then unwritten else Unwritten(Step(w, ops[0]), ops[1..], StillUnwritten(w, ops[0], unwritten))
  }

  /** The disk confirms exactly what memory confirms, less what is unwritten. */
  predicate Agree(core: map<Id, CoreApproval>, disk: map<Id, CoreApproval>, unwritten: set<Id>) {
    unwritten <= ConfirmedOf(core).Keys && ConfirmedOf(disk) == ConfirmedOf(core) - unwritten
  }

  ghost predicate Accounted(w: World, unwritten: set<Id>) {
    if w.up then Agree(w.m.state.core, OnDisk(w.m.file), unwritten) else unwritten == {}
  }

  /** While anything is unwritten every successful persist changes the file, so a changed file is how one is told. */
  lemma PersistChangesFileWhileUnwritten(m: Machine, fault: PersistFault, unwritten: set<Id>)
    requires Inv(m) && Agree(m.state.core, OnDisk(m.file), unwritten) && unwritten != {} && PersistMachine(m, fault).1
    ensures PersistMachine(m, fault).0.file != m.file
  {
    PersistMirrors(m, fault);
    PersistKeepsInv(m, fault);
    MirroredCore(PersistMachine(m, fault).0);
    var id :| id in unwritten;
    assert id in ConfirmedOf(m.state.core);
  }

  lemma GrownConfirmed(before: map<Id, CoreApproval>, after: map<Id, CoreApproval>, unwritten: set<Id>)
    requires Grows(before, after) && unwritten <= ConfirmedOf(before).Keys
    ensures var grown := unwritten + (ConfirmedOf(after).Keys - ConfirmedOf(before).Keys);
      grown <= ConfirmedOf(after).Keys && ConfirmedOf(after) - grown == ConfirmedOf(before) - unwritten
  {
  }

  lemma FollowingDisk(m: Machine, n: Machine)
    requires Follows(m, n) && Inv(n)
    ensures n.file == m.file || OnDisk(n.file) == n.state.core
  {
    if n.file != m.file {
      MirroredCore(n);
    }
  }

  lemma FollowingAgrees(before: map<Id, CoreApproval>, after: map<Id, CoreApproval>, earlier: map<Id, CoreApproval>,
                        disk: map<Id, CoreApproval>, changed: bool, unwritten: set<Id>)
    requires Grows(before, after) && Agree(before, earlier, unwritten) && (if changed then disk == after else disk == earlier)
    ensures Agree(after, disk, if changed then {} else unwritten + (ConfirmedOf(after).Keys - ConfirmedOf(before).Keys))
  {
    GrownConfirmed(before, after, unwritten);
  }

  lemma RunningAccounts(w: World, op: Op, unwritten: set<Id>)
    requires w.up && Inv(w.m) && Accounted(w, unwritten) && !op.OpBoot? && !op.OpCrash?
    ensures Accounted(Step(w, op), StillUnwritten(w, op, unwritten))
  {
    var n := StepMachine(w.m, op);
    StepFollows(w.m, op);
    StepMachineKeepsInv(w.m, op);
    FollowingDisk(w.m, n);
    FollowingAgrees(w.m.state.core, n.state.core, OnDisk(w.m.file), OnDisk(n.file), n.file != w.m.file, unwritten);
  }

  lemma BootAccounts(w: World, op: Op)
    requires !w.up && op.OpBoot?
    ensures Accounted(Step(w, op), {})
  {
    if Boot(w.m, op.session, op.readFails).Some? {
      BootReadsDisk(w.m, op.session, op.readFails);
    }
  }

  lemma StepAccounts(w: World, op: Op, unwritten: set<Id>)
    requires WorldInv(w) && Accounted(w, unwritten)
    ensures Accounted(Step(w, op), StillUnwritten(w, op, unwritten))
  {
    if w.up && !op.OpBoot? && !op.OpCrash? {
      RunningAccounts(w, op, unwritten);
    } else if !w.up && op.OpBoot? {
      BootAccounts(w, op);
    }
  }

  lemma {:induction false} RunAccounts(w: World, ops: seq<Op>, unwritten: set<Id>)
    requires WorldInv(w) && Accounted(w, unwritten)
    ensures WorldInv(Run(w, ops)) && Accounted(Run(w, ops), Unwritten(w, ops, unwritten))
    decreases |ops|
  {
    if ops != [] {
      StepKeepsInv(w, ops[0]);
      StepAccounts(w, ops[0], unwritten);
      RunAccounts(Step(w, ops[0]), ops[1..], StillUnwritten(w, ops[0], unwritten));
    }
  }

  // ---------------------------------------------------------------- durability

  predicate Confirms(file: map<Id, CoreApproval>, id: Id, approval: CoreApproval) {
    id in file && file[id] == approval && approval.confirmed
  }

  lemma StepKeepsConfirmedOnDisk(w: World, op: Op, unwritten: set<Id>, id: Id, approval: CoreApproval)
    requires WorldInv(w) && Accounted(w, unwritten) && Confirms(OnDisk(w.m.file), id, approval)
    ensures Confirms(OnDisk(Step(w, op).m.file), id, approval)
  {
    if w.up && !op.OpBoot? && !op.OpCrash? {
      var n := StepMachine(w.m, op);
      assert id in ConfirmedOf(OnDisk(w.m.file));
      assert id in ConfirmedOf(w.m.state.core) && w.m.state.core[id] == approval;
      StepFollows(w.m, op);
      StepMachineKeepsInv(w.m, op);
      if n.file != w.m.file {
        MirroredCore(n);
      }
    }
  }

  lemma {:induction false} RunKeepsConfirmedOnDisk(w: World, ops: seq<Op>, unwritten: set<Id>, id: Id, approval: CoreApproval)
    requires WorldInv(w) && Accounted(w, unwritten) && Confirms(OnDisk(w.m.file), id, approval)
    ensures Confirms(OnDisk(Run(w, ops).m.file), id, approval)
    decreases |ops|
  {
    if ops != [] {
      StepKeepsConfirmedOnDisk(w, ops[0], unwritten, id, approval);
      StepKeepsInv(w, ops[0]);
      StepAccounts(w, ops[0], unwritten);
      RunKeepsConfirmedOnDisk(Step(w, ops[0]), ops[1..], StillUnwritten(w, ops[0], unwritten), id, approval);
    }
  }

  /** The state file confirms the approval now and after every later run, whatever fails or crashes in it. */
  ghost predicate Durable(w: World, id: Id, approval: CoreApproval) {
    forall later: seq<Op> :: Confirms(OnDisk(Run(w, later).m.file), id, approval)
  }

  /**
   * After any run, a confirmation that reports success is durable exactly when the approval was
   * unconfirmed before the call, or some persist has written it since memory confirmed it.
   */
  lemma ConfirmationIsDurableExactlyWhenWritten(ops: seq<Op>, confirm: Op)
    requires confirm.OpConfirm? && Run(EMPTY_WORLD, ops).up
    requires ConfirmFirstApp(Run(EMPTY_WORLD, ops).m, confirm.core, confirm.approval, confirm.appCsr, confirm.generation,
                             confirm.now, confirm.faults).1.Ok?
    ensures var w := Run(EMPTY_WORLD, ops);
      && confirm.approval in w.m.state.core
      && var approval := w.m.state.core[confirm.approval];
         (Durable(Step(w, confirm), confirm.approval, Confirmed(approval))
          <==> !approval.confirmed || confirm.approval !in Unwritten(EMPTY_WORLD, ops, {}))
  {
    var w, id, unwritten := Run(EMPTY_WORLD, ops), confirm.approval, Unwritten(EMPTY_WORLD, ops, {});
    RunAccounts(EMPTY_WORLD, ops, {});
    ReportedIsWritten(w, confirm, unwritten);
    var n, approval := Step(w, confirm), Confirmed(w.m.state.core[id]);
    StepKeepsInv(w, confirm);
    StepAccounts(w, confirm, unwritten);
    if Confirms(OnDisk(n.m.file), id, approval) {
      forall later: seq<Op> ensures Confirms(OnDisk(Run(n, later).m.file), id, approval) {
        RunKeepsConfirmedOnDisk(n, later, StillUnwritten(w, confirm, unwritten), id, approval);
      }
    }
    assert Run(n, []) == n;
  }

  lemma ReportedIsWritten(w: World, confirm: Op, unwritten: set<Id>)
    requires w.up && Inv(w.m) && Accounted(w, unwritten) && confirm.OpConfirm?
    requires ConfirmFirstApp(w.m, confirm.core, confirm.approval, confirm.appCsr, confirm.generation, confirm.now, confirm.faults).1.Ok?
    ensures confirm.approval in w.m.state.core
    ensures var approval := w.m.state.core[confirm.approval];
      Confirms(OnDisk(Step(w, confirm).m.file), confirm.approval, Confirmed(approval))
      <==> !approval.confirmed || confirm.approval !in unwritten
  {
    var id := confirm.approval;
    var approval := w.m.state.core[id];
    if approval.confirmed {
      assert CoreSound(id, approval);
      assert Confirmed(approval) == approval && Step(w, confirm) == w;
      assert id in ConfirmedOf(w.m.state.core);
      assert id in ConfirmedOf(OnDisk(w.m.file)) <==> id !in unwritten;
    } else {
      FirstConfirmation(w.m, confirm);
    }
  }

  /** A confirmation that memory did not have yet is reported only with the file mirroring memory. */
  lemma FirstConfirmation(m: Machine, confirm: Op)
    requires Inv(m) && confirm.OpConfirm? && confirm.approval in m.state.core && !m.state.core[confirm.approval].confirmed
    requires ConfirmFirstApp(m, confirm.core, confirm.approval, confirm.appCsr, confirm.generation, confirm.now, confirm.faults).1.Ok?
    ensures Confirms(OnDisk(StepMachine(m, confirm).file), confirm.approval, Confirmed(m.state.core[confirm.approval]))
  {
    var changed := WithConfirmed(m, confirm.approval);
    var persisted := PersistMachine(changed, confirm.faults.persist).0;
    ConfirmPersists(m, confirm);
    PersistMirrors(changed, confirm.faults.persist);
    ConfirmedInMemoryKeepsInv(m, confirm.approval);
    PersistKeepsInv(changed, confirm.faults.persist);
    MirroredCore(persisted);
  }

  lemma ConfirmPersists(m: Machine, confirm: Op)
    requires confirm.OpConfirm? && confirm.approval in m.state.core && !m.state.core[confirm.approval].confirmed
    requires ConfirmFirstApp(m, confirm.core, confirm.approval, confirm.appCsr, confirm.generation, confirm.now, confirm.faults).1.Ok?
    ensures var (persisted, ok) := PersistMachine(WithConfirmed(m, confirm.approval), confirm.faults.persist);
      ok && StepMachine(m, confirm).file == persisted.file
  {
  }

  /** What is durable is found, confirmed, by every restart that can read the file. */
  lemma DurableIsRestored(w: World, id: Id, approval: CoreApproval, later: seq<Op>, session: Session)
    requires Durable(w, id, approval) && Boot(Run(w, later).m, session, false).Some?
    ensures var core := Boot(Run(w, later).m, session, false).value.state.core;
      id in core && core[id] == approval && approval.confirmed
  {
    BootReadsDisk(Run(w, later).m, session, false);
  }

  /** What is unwritten is lost by a crash: the next process does not find it confirmed. */
  lemma UnwrittenIsLostInACrash(ops: seq<Op>, id: Id, session: Session)
    requires Run(EMPTY_WORLD, ops).up && id in Unwritten(EMPTY_WORLD, ops, {}) && ValidSession(session)
    ensures var w := Run(EMPTY_WORLD, ops);
      && id in w.m.state.core && w.m.state.core[id].confirmed
      && var n := Step(Step(w, OpCrash), OpBoot(session, false));
         && (n.up <==> w.m.file.None? || w.m.file.value.size <= MAX_READABLE_BYTES)
         && (n.up ==> !(id in n.m.state.core && n.m.state.core[id].confirmed))
  {
    RunAccounts(EMPTY_WORLD, ops, {});
    var w := Run(EMPTY_WORLD, ops);
    assert id in ConfirmedOf(w.m.state.core) && id !in ConfirmedOf(OnDisk(w.m.file));
    BootFailsOnlyOnSize(w.m, session);
    if Boot(w.m, session, false).Some? {
      BootReadsDisk(w.m, session, false);
    }
  }

  /** An approval whose first confirmation failed to be written and was retried restarts as it was before both. */
  lemma RetryLeavesFile(m: Machine, approval: Id, now: nat, later: nat, failing: Faults, faults: Faults, size: nat)
    requires Inv(m) && m.file == Some(Image(Records(m.state), size)) && size <= MAX_READABLE_BYTES
    requires approval in m.state.core && !m.state.core[approval].confirmed && !ApprovalLapsed(m, approval, now)
    requires failing.persist.fails
    ensures var a := m.state.core[approval];
      var (first, refused) := ConfirmFirstApp(m, a.coreIdentity, approval, a.appCsr, a.generation, now, failing);
      var (second, accepted) := ConfirmFirstApp(first, a.coreIdentity, approval, a.appCsr, a.generation, later, faults);
      && refused == Err(PersistenceFailed) && accepted == Ok(())
      && Boot(second, m.session, false).Some?
      && var restarted := Boot(second, m.session, false).value;
         approval in restarted.state.core && restarted.state.core[approval] == a
  {
    BootstrapRuntimeTheorems.RetriedConfirmationIsNotWritten(m, approval, now, later, failing, faults);
    MirroredCore(m);
    BootFailsOnlyOnSize(m, m.session);
    BootReadsDisk(m, m.session, false);
  }
}
