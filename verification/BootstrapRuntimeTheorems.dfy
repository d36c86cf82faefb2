/** What the bootstrap runtime promises over whole runs: kept confirmations, bounded codes, limited starts. */
module BootstrapRuntimeTheorems {
  import opened Common
  import opened Sessions
  import opened StartLimiter
  import opened Windows
  import opened BootstrapRuntime
  import opened BootstrapRuntimeCodec
  import opened BootstrapRuntimeRuns

  // ---------------------------------------------------------------- confirmations

  /**
   * A confirmation reported after its persist is never lost: from then on the approval stays in memory
   * unchanged, with deadline zero, and a restart that can read the state file finds it again.
   */
  lemma KeptApprovalsAreNeverLost(ops: seq<Op>, id: Id)
    requires id in Run(EMPTY_WORLD, ops).m.kept
    ensures var w := Run(EMPTY_WORLD, ops);
      && w.m.file.Some?
      && (w.up ==> id in w.m.state.core && w.m.state.core[id] == w.m.kept[id]
                   && w.m.state.core[id].confirmed && w.m.state.core[id].recoveryExpires == 0)
      && forall session | !w.up && Boot(w.m, session, false).Some? ::
           var s := Boot(w.m, session, false).value.state;
           id in s.core && s.core[id] == w.m.kept[id]
  {
    RunKeepsInv(EMPTY_WORLD, ops);
    var w := Run(EMPTY_WORLD, ops);
    if w.up {
      KeptInMemory(w.m, id);
    } else {
      forall session | Boot(w.m, session, false).Some?
        ensures id in Boot(w.m, session, false).value.state.core && Boot(w.m, session, false).value.state.core[id] == w.m.kept[id]
      {
        BootEstablishesInv(w.m, session, false);
        KeptInMemory(Boot(w.m, session, false).value, id);
      }
    }
  }

  lemma KeptInMemory(m: Machine, id: Id)
    requires Inv(m) && id in m.kept
    ensures id in m.state.core && m.state.core[id] == m.kept[id]
    ensures m.state.core[id].confirmed && m.state.core[id].recoveryExpires == 0
  {
    assert KeepsAt(m.state.core, m.kept, id);
    assert CoreSound(id, m.state.core[id]);
  }

  lemma SweepLeavesKept(m: Machine, now: nat, faults: Faults)
    ensures Sweep(m, now, faults).0.kept == m.kept
  {
  }

  lemma OpeningsLeaveKept(m: Machine, peer: Peer, core: Digest, q: Request, code: Code, now: nat, creation: Creation, faults: Faults)
    ensures OpenAttempt(m, peer, q, code, now, creation, faults).0.kept == m.kept
    ensures OpenApproval(m, core, q, code, now, creation, faults).0.kept == m.kept
  {
    OpenAttemptShape(m, peer, q, code, now, creation, faults);
    OpenApprovalShape(m, core, q, code, now, creation, faults);
  }

  lemma BeginLeavesKept(m: Machine, peer: Peer, q: Request, code: Code, now: nat, creation: Creation, faults: Faults)
    ensures Begin(m, peer, q, code, now, creation, faults).0.kept == m.kept
  {
    var starts := Prune(m.state.starts, now);
    OpeningsLeaveKept(m.(state := m.state.(starts := Record(starts, peer, now))), peer, 0, q, code, now, creation, faults);
  }

  lemma StartLeavesKept(m: Machine, peer: Peer, request: Option<Request>, code: Code, now: nat, creation: Creation, faults: Faults)
    ensures Start(m, peer, request, code, now, creation, faults).0.kept == m.kept
  {
    SweepLeavesKept(m, now, faults);
    if request.Some? {
      BeginLeavesKept(Sweep(m, now, faults).0, peer, request.value, code, now, creation, faults);
    }
  }

  lemma StartAppLeavesKept(m: Machine, core: Digest, q: Request, code: Code, now: nat, creation: Creation, faults: Faults)
    ensures StartApp(m, core, q, code, now, creation, faults).0.kept == m.kept
  {
    SweepLeavesKept(m, now, faults);
    OpeningsLeaveKept(Sweep(m, now, faults).0, 0, core, q, code, now, creation, faults);
  }

  lemma StartsLeaveKept(m: Machine, op: Op)
    requires op.OpStart? || op.OpStartApp?
    ensures StepMachine(m, op).kept == m.kept
  {
    if op.OpStart? {
      StartLeavesKept(m, op.peer, op.request, op.secret, op.now, op.creation, op.faults);
    } else {
      StartAppLeavesKept(m, op.core, op.q, op.secret, op.now, op.creation, op.faults);
    }
  }

  lemma SubmissionsLeaveKept(m: Machine, op: Op)
    requires op.OpSubmit? || op.OpSubmitApp?
    ensures StepMachine(m, op).kept == m.kept
  {
  }

  lemma OthersLeaveKept(m: Machine, op: Op)
    requires op.OpAbort? || op.OpReconcile? || op.OpAuthorize?
    ensures StepMachine(m, op).kept == m.kept
  {
    if op.OpReconcile? {
      SweepLeavesKept(m, op.now, op.faults);
    }
  }

  /** A confirmation reported for a so far unconfirmed approval is kept. */
  lemma ConfirmationIsKept(m: Machine, op: Op)
    requires op.OpConfirm?
    ensures StepMachine(m, op).kept == m.kept
         || (&& op.approval in m.state.core && !m.state.core[op.approval].confirmed
             && StepMachine(m, op).kept == m.kept[op.approval := Confirmed(m.state.core[op.approval])])
    ensures op.approval in m.state.core && !m.state.core[op.approval].confirmed
            && ConfirmFirstApp(m, op.core, op.approval, op.appCsr, op.generation, op.now, op.faults).1.Ok? ==>
              StepMachine(m, op).kept == m.kept[op.approval := Confirmed(m.state.core[op.approval])]
  {
  }

  /** Nothing is ever taken out of `kept` or changed in it. */
  lemma KeptOnlyGrows(w: World, op: Op)
    requires WorldInv(w)
    ensures forall id | id in w.m.kept :: id in Step(w, op).m.kept && Step(w, op).m.kept[id] == w.m.kept[id]
  {
    if w.up && !op.OpBoot? && !op.OpCrash? {
      KeptAreInCore(w.m.state.core, w.m.kept);
      MachineKeptGrows(w.m, op);
    }
  }

  lemma MachineKeptGrows(m: Machine, op: Op)
    requires !op.OpBoot? && !op.OpCrash?
    requires forall id | id in m.kept :: id in m.state.core && m.state.core[id].confirmed
    ensures forall id | id in m.kept :: id in StepMachine(m, op).kept && StepMachine(m, op).kept[id] == m.kept[id]
  {
    if op.OpConfirm? { ConfirmationIsKept(m, op); }
    else if op.OpStart? || op.OpStartApp? { StartsLeaveKept(m, op); }
    else if op.OpSubmit? || op.OpSubmitApp? { SubmissionsLeaveKept(m, op); }
    else { OthersLeaveKept(m, op); }
  }

  lemma {:induction false} RunKeptGrows(w: World, ops: seq<Op>)
    requires WorldInv(w)
    ensures forall id | id in w.m.kept :: id in Run(w, ops).m.kept && Run(w, ops).m.kept[id] == w.m.kept[id]
    decreases |ops|
  {
    if ops != [] {
      StepKeepsInv(w, ops[0]);
      KeptOnlyGrows(w, ops[0]);
      RunKeptGrows(Step(w, ops[0]), ops[1..]);
    }
  }

  lemma {:induction false} RunSplits(w: World, ops: seq<Op>, later: seq<Op>)
    ensures Run(w, ops + later) == Run(Run(w, ops), later)
    decreases |ops|
  {
    if ops == [] {
      assert ops + later == later;
    } else {
      assert (ops + later)[1..] == ops[1..] + later;
      RunSplits(Step(w, ops[0]), ops[1..], later);
    }
  }

  /** Whatever happens after a first reported confirmation, crashes included, memory and disk keep it. */
  lemma ReportedConfirmationIsDurable(ops: seq<Op>, confirm: Op, later: seq<Op>)
    requires confirm.OpConfirm? && Run(EMPTY_WORLD, ops).up
    requires confirm.approval in Run(EMPTY_WORLD, ops).m.state.core
    requires !Run(EMPTY_WORLD, ops).m.state.core[confirm.approval].confirmed
    requires ConfirmFirstApp(Run(EMPTY_WORLD, ops).m, confirm.core, confirm.approval, confirm.appCsr, confirm.generation,
                             confirm.now, confirm.faults).1.Ok?
    ensures var approval := Confirmed(Run(EMPTY_WORLD, ops).m.state.core[confirm.approval]);
      var w := Run(EMPTY_WORLD, ops + [confirm] + later);
      && w.m.file.Some?
      && (w.up ==> confirm.approval in w.m.state.core && w.m.state.core[confirm.approval] == approval)
      && forall session | !w.up && Boot(w.m, session, false).Some? ::
           var s := Boot(w.m, session, false).value.state;
           confirm.approval in s.core && s.core[confirm.approval] == approval
  {
    var before := Run(EMPTY_WORLD, ops);
    RunKeepsInv(EMPTY_WORLD, ops);
    ConfirmationIsKept(before.m, confirm);
    StepKeepsInv(before, confirm);
    RunKeptGrows(Step(before, confirm), later);
    assert ops + [confirm] + later == ops + ([confirm] + later);
    assert ([confirm] + later)[1..] == later;
    RunSplits(EMPTY_WORLD, ops, [confirm] + later);
    KeptApprovalsAreNeverLost(ops + [confirm] + later, confirm.approval);
  }

  /**
   * A confirmation is durable when its persist was reported. After a failed persist the approval is
   * confirmed in memory only, and a retry reports success without writing anything.
   */
  lemma RetriedConfirmationIsNotWritten(m: Machine, approval: Id, now: nat, later: nat, failing: Faults, faults: Faults)
    requires approval in m.state.core && !m.state.core[approval].confirmed && !ApprovalLapsed(m, approval, now)
    requires failing.persist.fails
    ensures var a := m.state.core[approval];
      var (first, refused) := ConfirmFirstApp(m, a.coreIdentity, approval, a.appCsr, a.generation, now, failing);
      var (second, accepted) := ConfirmFirstApp(first, a.coreIdentity, approval, a.appCsr, a.generation, later, faults);
      && refused == Err(PersistenceFailed) && accepted == Ok(())
      && second.file == m.file && second.kept == m.kept
  {
  }

  // ---------------------------------------------------------------- wrong codes and starts

  /**
   * Wrong codes compared, those that met the limit while the close failed, the attempts and approvals
   * ended by one that met it while the close succeeded, and mismatches answered.
   */
  datatype History = History(wrong: multiset<Id>, stuck: multiset<Id>, ended: set<Id>, mismatched: multiset<Id>, passes: seq<Pass>)

  const EMPTY_HISTORY := History(multiset{}, multiset{}, {}, multiset{}, [])

  predicate ComparesWrongCode(m: Machine, op: Op)
    requires op.OpSubmit?
  {
    && SubmitRefusal(m, op.peer, op.id, op.challenge, op.code).None?
    && var a := m.state.attempts[op.id];
       !(op.now > a.expires || op.now > a.hardExpires) && a.code != op.code.value
  }

  predicate ComparesWrongAppCode(m: Machine, op: Op)
    requires op.OpSubmitApp?
  {
    && SubmitAppRefusal(m, op.core, op.id, op.challenge, op.code, op.csrMatches, op.appCsr).None?
    && var a := m.state.app[op.id];
       op.now <= a.expires && a.code != op.code.value
  }

  function CountWrong(h: History, id: Id, limit: bool, closes: bool, mismatch: bool): History {
    h.(wrong := h.wrong + multiset{id},
       stuck := if limit && !closes then h.stuck + multiset{id} else h.stuck,
       ended := if limit && closes then h.ended + {id} else h.ended,
       mismatched := if mismatch then h.mismatched + multiset{id} else h.mismatched)
  }

  predicate PassesLimiter(swept: Machine, op: Op)
    requires op.OpStart? && op.request.Some?
  {
    && StartRefusal(swept.state, op.request.value.session).None?
    && |StartLimiter.History(Prune(swept.state.starts, op.now), op.peer)| < MAX_PEER_STARTS
  }

  ghost predicate Passes(m: Machine, op: Op)
    requires op.OpStart?
  {
    && RequestRefusal(m, op.request).None? && Sweep(m, op.now, op.faults).1.Ok?
    && PassesLimiter(Sweep(m, op.now, op.faults).0, op)
  }

  ghost function StepHistory(w: World, h: History, op: Op): History {
    if op.OpBoot? then (if !w.up && Boot(w.m, op.session, op.readFails).Some? then h.(passes := []) else h)
    else if !w.up || op.OpCrash? then h
    else if op.OpStart? && Passes(w.m, op) then h.(passes := h.passes + [Pass(op.peer, op.now)])
    else if op.OpSubmit? && ComparesWrongCode(w.m, op) then
      var a := w.m.state.attempts[op.id];
      CountWrong(h, op.id, Counted(a.failures) >= MAX_CODE_FAILURES, CloseSucceeds(a.workspace, op.faults.closes),
                 Submit(w.m, op.peer, op.id, op.challenge, op.code, op.now, op.certificate, op.faults).1 == Err(CodeMismatch))
    else if op.OpSubmitApp? && ComparesWrongAppCode(w.m, op) then
      var a := w.m.state.app[op.id];
      CountWrong(h, op.id, Counted(a.failures) >= MAX_CODE_FAILURES, CloseSucceeds(a.workspace, op.faults.closes),
                 SubmitApp(w.m, op.core, op.id, op.challenge, op.code, op.csrMatches, op.appCsr, op.now, op.faults).1 == Err(CodeMismatch))
    else h
  }

  ghost function RunHistory(w: World, h: History, ops: seq<Op>): History
    decreases |ops|
  {
    if ops == [] then h else RunHistory(Step(w, ops[0]), StepHistory(w, h, ops[0]), ops[1..])
  }

  /** Outside submissions, attempts and app approvals are kept as they are, dropped, or new without failures. */
  predicate Carries(m: Machine, n: Machine) {
    && m.nextId <= n.nextId
    && (forall id {:trigger id in n.state.attempts} | id in n.state.attempts ::
          (id in m.state.attempts && n.state.attempts[id] == m.state.attempts[id])
          || (m.nextId <= id < n.nextId && n.state.attempts[id].failures == 0))
    && (forall id {:trigger id in n.state.app} | id in n.state.app ::
          (id in m.state.app && n.state.app[id] == m.state.app[id])
          || (m.nextId <= id < n.nextId && n.state.app[id].failures == 0))
  }

  lemma SweepCarries(m: Machine, now: nat, faults: Faults)
    ensures Carries(m, Sweep(m, now, faults).0) && Sweep(m, now, faults).0.nextId == m.nextId
  {
  }

  lemma KeepOrRollBackCarries(m: Machine, before: Machine, after: Machine, w: WorkspaceId, session: Session, faults: Faults)
    requires Carries(m, before) && Carries(m, after) && before.nextId == after.nextId
    ensures Carries(m, KeepOrRollBack(before, after, w, session, faults).0)
  {
  }

  lemma OpeningsCarry(m: Machine, peer: Peer, core: Digest, q: Request, code: Code, now: nat, creation: Creation, faults: Faults)
    ensures Carries(m, OpenAttempt(m, peer, q, code, now, creation, faults).0)
    ensures Carries(m, OpenApproval(m, core, q, code, now, creation, faults).0)
  {
    OpenAttemptShape(m, peer, q, code, now, creation, faults);
    OpenApprovalShape(m, core, q, code, now, creation, faults);
    if Create(creation).Ok? {
      var w := Create(creation).value;
      var three, two := m.(nextId := m.nextId + 3), m.(nextId := m.nextId + 2);
      KeepOrRollBackCarries(m, three, WithAttempt(three, m.nextId, NewAttempt(m, peer, q, code, now, w)), w, q.session, faults);
      KeepOrRollBackCarries(m, two, WithApp(two, m.nextId, NewApproval(m, core, q, code, now, w)), w, q.session, faults);
    }
  }

  lemma CarriesTwice(m: Machine, k: Machine, n: Machine)
    requires Carries(m, k) && Carries(k, n)
    ensures Carries(m, n)
  {
  }

  lemma BeginCarries(m: Machine, peer: Peer, q: Request, code: Code, now: nat, creation: Creation, faults: Faults)
    ensures Carries(m, Begin(m, peer, q, code, now, creation, faults).0)
  {
    var starts := Prune(m.state.starts, now);
    OpeningsCarry(m.(state := m.state.(starts := Record(starts, peer, now))), peer, 0, q, code, now, creation, faults);
  }

  lemma StartCarries(m: Machine, peer: Peer, request: Option<Request>, code: Code, now: nat, creation: Creation, faults: Faults)
    ensures Carries(m, Start(m, peer, request, code, now, creation, faults).0)
  {
    if RequestRefusal(m, request).None? {
      var swept := Sweep(m, now, faults).0;
      SweepCarries(m, now, faults);
      BeginCarries(swept, peer, request.value, code, now, creation, faults);
      CarriesTwice(m, swept, Begin(swept, peer, request.value, code, now, creation, faults).0);
    }
  }

  lemma StartAppCarries(m: Machine, core: Digest, q: Request, code: Code, now: nat, creation: Creation, faults: Faults)
    ensures Carries(m, StartApp(m, core, q, code, now, creation, faults).0)
  {
    var swept := Sweep(m, now, faults).0;
    SweepCarries(m, now, faults);
    OpeningsCarry(swept, 0, core, q, code, now, creation, faults);
    CarriesTwice(m, swept, BeginApp(swept, core, q, code, now, creation, faults).0);
  }

  lemma QuietStepCarries(m: Machine, op: Op)
    requires !op.OpBoot? && !op.OpCrash? && !op.OpSubmit? && !op.OpSubmitApp?
    ensures Carries(m, StepMachine(m, op))
  {
    if op.OpStart? { StartCarries(m, op.peer, op.request, op.secret, op.now, op.creation, op.faults); }
    else if op.OpStartApp? { StartAppCarries(m, op.core, op.q, op.secret, op.now, op.creation, op.faults); }
    else if op.OpReconcile? { SweepCarries(m, op.now, op.faults); }
    else if op.OpAbort? { AbortCarries(m, op); }
    else { ApprovalStepCarries(m, op); }
  }

  lemma AbortCarries(m: Machine, op: Op)
    requires op.OpAbort?
    ensures Carries(m, StepMachine(m, op))
  {
  }

  lemma ApprovalStepCarries(m: Machine, op: Op)
    requires op.OpAuthorize? || op.OpConfirm?
    ensures Carries(m, StepMachine(m, op))
  {
  }

  /** How the failures counted for a live attempt or approval relate to its history. */
  predicate Live(h: History, id: Id, failures: nat) {
    && id !in h.ended && h.mismatched[id] < MAX_CODE_FAILURES
    && (if failures < MAX_CODE_FAILURES then h.wrong[id] == failures && h.mismatched[id] <= failures && h.stuck[id] == 0
        else h.wrong[id] == MAX_CODE_FAILURES - 1 + h.stuck[id] && h.stuck[id] > 0)
  }

  /** Four wrong codes below the limit, then one more for each stuck close and for the one that ended it. */
  predicate Lawful(h: History, id: Id) {
    if h.stuck[id] == 0 && id !in h.ended then h.wrong[id] < MAX_CODE_FAILURES
    else h.wrong[id] == MAX_CODE_FAILURES - 1 + h.stuck[id] + (if id in h.ended then 1 else 0)
  }

  predicate BoundedAt(h: History, next: Id, id: Id) {
    && h.mismatched[id] < MAX_CODE_FAILURES && Lawful(h, id)
    && (id >= next ==> h.wrong[id] == 0 && h.mismatched[id] == 0 && h.stuck[id] == 0 && id !in h.ended)
  }

  ghost predicate Bounded(h: History, next: Id) {
    forall id: Id {:trigger BoundedAt(h, next, id)} :: BoundedAt(h, next, id)
  }

  predicate LiveAttempts(h: History, attempts: map<Id, Attempt>) {
    forall id {:trigger Live(h, id, attempts[id].failures)} | id in attempts :: Live(h, id, attempts[id].failures)
  }

  predicate LiveApp(h: History, app: map<Id, AppApproval>) {
    forall id {:trigger Live(h, id, app[id].failures)} | id in app :: Live(h, id, app[id].failures)
  }

  ghost predicate CodesInv(w: World, h: History) {
    Bounded(h, w.m.nextId) && (w.up ==> LiveAttempts(h, w.m.state.attempts) && LiveApp(h, w.m.state.app))
  }

  lemma CarriedCodes(m: Machine, n: Machine, h: History)
    requires Carries(m, n) && Bounded(h, m.nextId) && LiveAttempts(h, m.state.attempts) && LiveApp(h, m.state.app)
    ensures Bounded(h, n.nextId) && LiveAttempts(h, n.state.attempts) && LiveApp(h, n.state.app)
  {
    forall id: Id ensures BoundedAt(h, n.nextId, id) {
      assert BoundedAt(h, m.nextId, id);
    }
    forall id | id in n.state.attempts ensures Live(h, id, n.state.attempts[id].failures) {
      assert id in m.state.attempts ==> Live(h, id, m.state.attempts[id].failures);
      assert BoundedAt(h, m.nextId, id);
    }
    forall id | id in n.state.app ensures Live(h, id, n.state.app[id].failures) {
      assert id in m.state.app ==> Live(h, id, m.state.app[id].failures);
      assert BoundedAt(h, m.nextId, id);
    }
  }

  /** A counted wrong code keeps the bounds; the submitted item, if it stays, has one more failure. */
  lemma CountedCodes(h: History, id: Id, failures: nat, next: Id, closes: bool, mismatch: bool)
    requires Bounded(h, next) && id < next && Live(h, id, failures)
    requires mismatch ==> Counted(failures) < MAX_CODE_FAILURES
    ensures var k := CountWrong(h, id, Counted(failures) >= MAX_CODE_FAILURES, closes, mismatch);
      && Bounded(k, next)
      && (Counted(failures) < MAX_CODE_FAILURES || !closes ==> Live(k, id, Counted(failures)))
      && (forall other, f | other != id && Live(h, other, f) :: Live(k, other, f))
  {
    var k := CountWrong(h, id, Counted(failures) >= MAX_CODE_FAILURES, closes, mismatch);
    forall other: Id ensures BoundedAt(k, next, other) {
      assert BoundedAt(h, next, other);
    }
  }

  /** Only the attempt `id` may have changed or gone. */
  predicate MovesOnly(m: Machine, n: Machine, id: Id) {
    && n.nextId == m.nextId && n.state.app == m.state.app
    && n.state.attempts.Keys <= m.state.attempts.Keys
    && (forall other | other in n.state.attempts && other != id :: n.state.attempts[other] == m.state.attempts[other])
  }

  lemma EndingMoves(m: Machine, id: Id, error: RuntimeError, faults: Faults)
    requires id in m.state.attempts
    ensures var n := EndAttempt(m, id, error, faults).0;
      MovesOnly(m, n, id) && (id in n.state.attempts ==> n.state.attempts[id] == m.state.attempts[id])
  {
  }

  lemma IssuingMoves(m: Machine, id: Id, now: nat, certificate: Option<Certificate>, faults: Faults)
    requires id in m.state.attempts
    ensures var n := IssueFor(m, id, now, certificate, faults).0;
      MovesOnly(m, n, id) && (id in n.state.attempts ==> n.state.attempts[id] == m.state.attempts[id])
  {
  }

  lemma WrongCodeMoves(m: Machine, id: Id, faults: Faults)
    requires id in m.state.attempts
    ensures var (n, error) := CountWrongCode(m, id, faults);
      var a := m.state.attempts[id];
      && MovesOnly(m, n, id)
      && (id in n.state.attempts ==>
            && n.state.attempts[id].failures == Counted(a.failures)
            && (Counted(a.failures) < MAX_CODE_FAILURES || !CloseSucceeds(a.workspace, faults.closes)))
      && (error == CodeMismatch ==> Counted(a.failures) < MAX_CODE_FAILURES)
  {
  }

  lemma SubmitMoves(m: Machine, op: Op)
    requires op.OpSubmit?
    ensures var (n, result) := Submit(m, op.peer, op.id, op.challenge, op.code, op.now, op.certificate, op.faults);
      && MovesOnly(m, n, op.id)
      && (if ComparesWrongCode(m, op) then
            var a := m.state.attempts[op.id];
            && (op.id in n.state.attempts ==>
                  && n.state.attempts[op.id].failures == Counted(a.failures)
                  && (Counted(a.failures) < MAX_CODE_FAILURES || !CloseSucceeds(a.workspace, op.faults.closes)))
            && (result == Err(CodeMismatch) ==> Counted(a.failures) < MAX_CODE_FAILURES)
          else op.id in n.state.attempts ==> n.state.attempts[op.id] == m.state.attempts[op.id])
  {
    if SubmitRefusal(m, op.peer, op.id, op.challenge, op.code).None? {
      EndingMoves(m, op.id, Expired, op.faults);
      WrongCodeMoves(m, op.id, op.faults);
      IssuingMoves(m, op.id, op.now, op.certificate, op.faults);
    }
  }

  lemma SubmitAppMoves(m: Machine, op: Op)
    requires op.OpSubmitApp?
    ensures var (n, result) := SubmitApp(m, op.core, op.id, op.challenge, op.code, op.csrMatches, op.appCsr, op.now, op.faults);
      && n.nextId == m.nextId && n.state.attempts == m.state.attempts
      && n.state.app.Keys <= m.state.app.Keys
      && (forall id | id in n.state.app && id != op.id :: n.state.app[id] == m.state.app[id])
      && (if ComparesWrongAppCode(m, op) then
            var a := m.state.app[op.id];
            && (op.id in n.state.app ==>
                  && n.state.app[op.id].failures == Counted(a.failures)
                  && (Counted(a.failures) < MAX_CODE_FAILURES || !CloseSucceeds(a.workspace, op.faults.closes)))
            && (result == Err(CodeMismatch) ==> Counted(a.failures) < MAX_CODE_FAILURES)
          else op.id in n.state.app ==> n.state.app[op.id] == m.state.app[op.id])
  {
  }

  lemma SubmissionKeepsCodes(w: World, h: History, op: Op)
    requires WorldInv(w) && CodesInv(w, h) && w.up && op.OpSubmit?
    ensures CodesInv(Step(w, op), StepHistory(w, h, op))
  {
    SubmitMoves(w.m, op);
    var attempts, n, k := w.m.state.attempts, Step(w, op).m, StepHistory(w, h, op);
    if ComparesWrongCode(w.m, op) {
      var a := attempts[op.id];
      AttemptTracks(w.m, op.id);
      assert Live(h, op.id, attempts[op.id].failures);
      CountedCodes(h, op.id, a.failures, w.m.nextId,
                   CloseSucceeds(a.workspace, op.faults.closes),
                   Submit(w.m, op.peer, op.id, op.challenge, op.code, op.now, op.certificate, op.faults).1 == Err(CodeMismatch));
    }
    forall id | id in n.state.attempts ensures Live(k, id, n.state.attempts[id].failures) {
      assert Live(h, id, attempts[id].failures);
    }
    forall id | id in n.state.app ensures Live(k, id, n.state.app[id].failures) {
      assert Live(h, id, w.m.state.app[id].failures);
    }
  }

  lemma AppSubmissionKeepsCodes(w: World, h: History, op: Op)
    requires WorldInv(w) && CodesInv(w, h) && w.up && op.OpSubmitApp?
    ensures CodesInv(Step(w, op), StepHistory(w, h, op))
  {
    SubmitAppMoves(w.m, op);
    var app, n, k := w.m.state.app, Step(w, op).m, StepHistory(w, h, op);
    if ComparesWrongAppCode(w.m, op) {
      var a := app[op.id];
      AppTracks(w.m, op.id);
      assert Live(h, op.id, app[op.id].failures);
      CountedCodes(h, op.id, a.failures, w.m.nextId,
                   CloseSucceeds(a.workspace, op.faults.closes),
                   SubmitApp(w.m, op.core, op.id, op.challenge, op.code, op.csrMatches, op.appCsr, op.now, op.faults).1 == Err(CodeMismatch));
    }
    forall id | id in n.state.app ensures Live(k, id, n.state.app[id].failures) {
      assert Live(h, id, app[id].failures);
    }
    forall id | id in n.state.attempts ensures Live(k, id, n.state.attempts[id].failures) {
      assert Live(h, id, w.m.state.attempts[id].failures);
    }
  }

  lemma StepKeepsCodes(w: World, h: History, op: Op)
    requires WorldInv(w) && CodesInv(w, h)
    ensures CodesInv(Step(w, op), StepHistory(w, h, op))
  {
    if w.up && !op.OpBoot? && !op.OpCrash? {
      if op.OpSubmit? { SubmissionKeepsCodes(w, h, op); }
      else if op.OpSubmitApp? { AppSubmissionKeepsCodes(w, h, op); }
      else { QuietStepKeepsCodes(w, h, op); }
    } else {
      LifecycleKeepsCodes(w, h, op);
    }
  }

  lemma SamePasses(h: History, k: History, w: World)
    requires k == h.(passes := k.passes) && CodesInv(w, h)
    ensures CodesInv(w, k)
  {
    forall id: Id ensures BoundedAt(k, w.m.nextId, id) {
      assert BoundedAt(h, w.m.nextId, id);
    }
    forall id | id in w.m.state.attempts && w.up ensures Live(k, id, w.m.state.attempts[id].failures) {
      assert Live(h, id, w.m.state.attempts[id].failures);
    }
    forall id | id in w.m.state.app && w.up ensures Live(k, id, w.m.state.app[id].failures) {
      assert Live(h, id, w.m.state.app[id].failures);
    }
  }

  lemma QuietStepKeepsCodes(w: World, h: History, op: Op)
    requires CodesInv(w, h) && w.up && !op.OpBoot? && !op.OpCrash? && !op.OpSubmit? && !op.OpSubmitApp?
    ensures CodesInv(Step(w, op), StepHistory(w, h, op))
  {
    QuietStepCarries(w.m, op);
    CarriedCodes(w.m, StepMachine(w.m, op), h);
    SamePasses(h, StepHistory(w, h, op), Step(w, op));
  }

  lemma LifecycleKeepsCodes(w: World, h: History, op: Op)
    requires CodesInv(w, h) && (!w.up || op.OpBoot? || op.OpCrash?)
    ensures CodesInv(Step(w, op), StepHistory(w, h, op))
  {
    SamePasses(h, StepHistory(w, h, op), Step(w, op).(up := Step(w, op).up && w.up));
  }

  lemma {:induction false} RunKeepsCodes(w: World, h: History, ops: seq<Op>)
    requires WorldInv(w) && CodesInv(w, h)
    ensures CodesInv(Run(w, ops), RunHistory(w, h, ops))
    decreases |ops|
  {
    if ops != [] {
      StepKeepsCodes(w, h, ops[0]);
      StepKeepsInv(w, ops[0]);
      RunKeepsCodes(Step(w, ops[0]), StepHistory(w, h, ops[0]), ops[1..]);
    }
  }

  /**
   * The exact law of wrong codes over whole runs. At most four submissions of an attempt or approval are
   * answered with a code mismatch. More than five are compared exactly when the workspace
   * would not close twice at the limit, or once and a later wrong code ended the attempt or approval.
   */
  lemma WrongCodesExactly(ops: seq<Op>, id: Id)
    ensures var h := RunHistory(EMPTY_WORLD, EMPTY_HISTORY, ops);
      && h.mismatched[id] < MAX_CODE_FAILURES
      && Lawful(h, id)
      && (h.wrong[id] > MAX_CODE_FAILURES <==> h.stuck[id] >= 2 || (h.stuck[id] == 1 && id in h.ended))
  {
    RunKeepsCodes(EMPTY_WORLD, EMPTY_HISTORY, ops);
    assert BoundedAt(RunHistory(EMPTY_WORLD, EMPTY_HISTORY, ops), Run(EMPTY_WORLD, ops).m.nextId, id);
  }

  // ---------------------------------------------------------------- the start limiter

  predicate TimedOp(op: Op) {
    !op.OpBoot? && !op.OpCrash? && !op.OpAbort?
  }

  function Clock(clock: nat, op: Op): nat {
    if TimedOp(op) then Max(clock, op.now) else clock
  }

  predicate Monotone(ops: seq<Op>, clock: nat)
    decreases |ops|
  {
    ops == [] || ((TimedOp(ops[0]) ==> clock <= ops[0].now) && Monotone(ops[1..], Clock(clock, ops[0])))
  }

  function ClockAfter(clock: nat, ops: seq<Op>): nat
    decreases |ops|
  {
    if ops == [] then clock else ClockAfter(Clock(clock, ops[0]), ops[1..])
  }

  lemma SweepLeavesStarts(m: Machine, now: nat, faults: Faults)
    ensures Sweep(m, now, faults).0.state.starts == m.state.starts
  {
  }

  lemma KeepOrRollBackLeavesStarts(before: Machine, after: Machine, w: WorkspaceId, session: Session, faults: Faults)
    requires before.state.starts == after.state.starts
    ensures KeepOrRollBack(before, after, w, session, faults).0.state.starts == before.state.starts
  {
  }

  lemma OpenAttemptLeavesStarts(m: Machine, peer: Peer, q: Request, code: Code, now: nat, creation: Creation, faults: Faults)
    ensures OpenAttempt(m, peer, q, code, now, creation, faults).0.state.starts == m.state.starts
  {
    OpenAttemptShape(m, peer, q, code, now, creation, faults);
    if Create(creation).Ok? {
      var w, minted := Create(creation).value, m.(nextId := m.nextId + 3);
      KeepOrRollBackLeavesStarts(minted, WithAttempt(minted, m.nextId, NewAttempt(m, peer, q, code, now, w)), w, q.session, faults);
    }
  }

  lemma OpenApprovalLeavesStarts(m: Machine, core: Digest, q: Request, code: Code, now: nat, creation: Creation, faults: Faults)
    ensures OpenApproval(m, core, q, code, now, creation, faults).0.state.starts == m.state.starts
  {
    OpenApprovalShape(m, core, q, code, now, creation, faults);
    if Create(creation).Ok? {
      var w, minted := Create(creation).value, m.(nextId := m.nextId + 2);
      KeepOrRollBackLeavesStarts(minted, WithApp(minted, m.nextId, NewApproval(m, core, q, code, now, w)), w, q.session, faults);
    }
  }

  lemma BeginStarts(m: Machine, op: Op)
    requires op.OpStart? && op.request.Some?
    ensures var starts := Begin(m, op.peer, op.request.value, op.secret, op.now, op.creation, op.faults).0.state.starts;
      starts == if PassesLimiter(m, op) then Record(Prune(m.state.starts, op.now), op.peer, op.now)
                else if StartRefusal(m.state, op.request.value.session).None? then Prune(m.state.starts, op.now)
                else m.state.starts
  {
    var starts := Prune(m.state.starts, op.now);
    OpenAttemptLeavesStarts(m.(state := m.state.(starts := Record(starts, op.peer, op.now))),
                            op.peer, op.request.value, op.secret, op.now, op.creation, op.faults);
  }

  lemma StartKeepsLimiter(m: Machine, passes: seq<Pass>, op: Op, clock: nat)
    requires op.OpStart? && clock <= op.now && Tracks(m.state.starts, passes, clock)
    ensures Tracks(StepMachine(m, op).state.starts, if Passes(m, op) then passes + [Pass(op.peer, op.now)] else passes, op.now)
  {
    TicksTrack(m.state.starts, passes, clock, op.now);
    if RequestRefusal(m, op.request).None? {
      var swept := Sweep(m, op.now, op.faults).0;
      SweepLeavesStarts(m, op.now, op.faults);
      BeginStarts(swept, op);
      PruneTracks(swept.state.starts, passes, clock, op.now);
      if PassesLimiter(swept, op) {
        PassTracks(Prune(swept.state.starts, op.now), passes, op.peer, op.now);
      }
    }
  }

  lemma StartAppLeavesStarts(m: Machine, core: Digest, q: Request, code: Code, now: nat, creation: Creation, faults: Faults)
    ensures StartApp(m, core, q, code, now, creation, faults).0.state.starts == m.state.starts
  {
    SweepLeavesStarts(m, now, faults);
    OpenApprovalLeavesStarts(Sweep(m, now, faults).0, core, q, code, now, creation, faults);
  }

  lemma ReconcileLeavesStarts(m: Machine, approval: Id, coreBinding: Digest, session: Session, now: nat, faults: Faults)
    ensures Reconcile(m, approval, coreBinding, session, now, faults).0.state.starts == m.state.starts
  {
    SweepLeavesStarts(m, now, faults);
  }

  lemma EndingsLeaveStarts(m: Machine, id: Id, error: RuntimeError, faults: Faults)
    ensures id in m.state.attempts ==> EndAttempt(m, id, error, faults).0.state.starts == m.state.starts
    ensures id in m.state.app ==> EndApp(m, id, faults).0.state.starts == m.state.starts
  {
  }

  lemma WrongCodesLeaveStarts(m: Machine, id: Id, faults: Faults)
    ensures id in m.state.attempts ==> CountWrongCode(m, id, faults).0.state.starts == m.state.starts
    ensures id in m.state.app ==> CountWrongAppCode(m, id, faults).0.state.starts == m.state.starts
  {
  }

  lemma IssuingLeavesStarts(m: Machine, id: Id, now: nat, certificate: Option<Certificate>, faults: Faults)
    requires id in m.state.attempts
    ensures IssueFor(m, id, now, certificate, faults).0.state.starts == m.state.starts
  {
  }

  lemma SubmitLeavesStarts(m: Machine, op: Op)
    requires op.OpSubmit?
    ensures Submit(m, op.peer, op.id, op.challenge, op.code, op.now, op.certificate, op.faults).0.state.starts == m.state.starts
  {
    if SubmitRefusal(m, op.peer, op.id, op.challenge, op.code).None? {
      EndingsLeaveStarts(m, op.id, Expired, op.faults);
      WrongCodesLeaveStarts(m, op.id, op.faults);
      IssuingLeavesStarts(m, op.id, op.now, op.certificate, op.faults);
    }
  }

  lemma SubmitAppLeavesStarts(m: Machine, op: Op)
    requires op.OpSubmitApp?
    ensures SubmitApp(m, op.core, op.id, op.challenge, op.code, op.csrMatches, op.appCsr, op.now, op.faults).0.state.starts == m.state.starts
  {
    if SubmitAppRefusal(m, op.core, op.id, op.challenge, op.code, op.csrMatches, op.appCsr).None? {
      EndingsLeaveStarts(m, op.id, Expired, op.faults);
      WrongCodesLeaveStarts(m, op.id, op.faults);
    }
  }

  lemma ApprovalsLeaveStarts(m: Machine, op: Op)
    requires op.OpAuthorize? || op.OpConfirm?
    ensures StepMachine(m, op).state.starts == m.state.starts
  {
  }

  lemma AbortLeavesStarts(m: Machine, id: Id, faults: Faults)
    ensures Abort(m, id, faults).0.state.starts == m.state.starts
  {
  }

  lemma OthersLeaveStarts(m: Machine, op: Op)
    requires !op.OpBoot? && !op.OpCrash? && !op.OpStart?
    ensures StepMachine(m, op).state.starts == m.state.starts
  {
    if op.OpStartApp? { StartAppLeavesStarts(m, op.core, op.q, op.secret, op.now, op.creation, op.faults); }
    else if op.OpReconcile? { ReconcileLeavesStarts(m, op.approval, op.coreBinding, op.session, op.now, op.faults); }
    else if op.OpAbort? { AbortLeavesStarts(m, op.id, op.faults); }
    else if op.OpSubmit? { SubmitLeavesStarts(m, op); }
    else if op.OpSubmitApp? { SubmitAppLeavesStarts(m, op); }
    else { ApprovalsLeaveStarts(m, op); }
  }

  ghost predicate Limited(w: World, h: History, clock: nat) {
    w.up ==> Tracks(w.m.state.starts, h.passes, clock)
  }

  lemma MachineSteps(w: World, op: Op)
    requires w.up && !op.OpBoot? && !op.OpCrash?
    ensures Step(w, op) == World(true, StepMachine(w.m, op))
  {
  }

  lemma HistoryPasses(w: World, h: History, op: Op)
    requires w.up && !op.OpBoot? && !op.OpCrash?
    ensures StepHistory(w, h, op).passes == if op.OpStart? && Passes(w.m, op) then h.passes + [Pass(op.peer, op.now)] else h.passes
  {
  }

  lemma OthersKeepLimiter(m: Machine, passes: seq<Pass>, op: Op, clock: nat)
    requires !op.OpBoot? && !op.OpCrash? && !op.OpStart? && (TimedOp(op) ==> clock <= op.now)
    requires Tracks(m.state.starts, passes, clock)
    ensures Tracks(StepMachine(m, op).state.starts, passes, Clock(clock, op))
  {
    var later := Clock(clock, op);
    TicksTrack(m.state.starts, passes, clock, later);
    OthersLeaveStarts(m, op);
  }

  lemma StepKeepsLimiter(w: World, h: History, op: Op, clock: nat)
    requires Limited(w, h, clock) && (TimedOp(op) ==> clock <= op.now)
    ensures Limited(Step(w, op), StepHistory(w, h, op), Clock(clock, op))
  {
    if w.up && !op.OpBoot? && !op.OpCrash? {
      MachineSteps(w, op);
      HistoryPasses(w, h, op);
      if op.OpStart? {
        StartKeepsLimiter(w.m, h.passes, op, clock);
      } else {
        OthersKeepLimiter(w.m, h.passes, op, clock);
      }
    }
  }

  lemma {:induction false} RunKeepsLimiter(w: World, h: History, ops: seq<Op>, clock: nat)
    requires Limited(w, h, clock) && Monotone(ops, clock)
    ensures Limited(Run(w, ops), RunHistory(w, h, ops), ClockAfter(clock, ops))
    decreases |ops|
  {
    if ops != [] {
      StepKeepsLimiter(w, h, ops[0], clock);
      RunKeepsLimiter(Step(w, ops[0]), StepHistory(w, h, ops[0]), ops[1..], Clock(clock, ops[0]));
    }
  }

  /** Within one process and under a clock that never runs backwards, a peer passes three starts per 900 seconds. */
  lemma StartsAreLimited(ops: seq<Op>, peer: Peer, from: nat)
    requires Monotone(ops, 0) && Run(EMPTY_WORLD, ops).up
    ensures |InWindow(TimesOf(RunHistory(EMPTY_WORLD, EMPTY_HISTORY, ops).passes, peer), from, START_WINDOW)| <= MAX_PEER_STARTS
  {
    RunKeepsLimiter(EMPTY_WORLD, EMPTY_HISTORY, ops, 0);
    var w, h := Run(EMPTY_WORLD, ops), RunHistory(EMPTY_WORLD, EMPTY_HISTORY, ops);
    AtMostThreePerWindow(w.m.state.starts, h.passes, ClockAfter(0, ops), peer, from);
  }
}
