/** Whom the bootstrap runtime answers: every acceptance against the calls and answers before it, over restarts. */
module BootstrapRuntimeAnswers {
  import opened Common
  import opened Sessions
  import opened StartLimiter
  import opened BootstrapRuntime
  import opened BootstrapRuntimeCodec
  import opened BootstrapRuntimeRuns
  import Durability = BootstrapRuntimeDurability
  import Theorems = BootstrapRuntimeTheorems

  // ---------------------------------------------------------------- calls and answers

  datatype Answer =
    | Silent
    | Challenged(challenged: Result<Challenge, RuntimeError>)
    | Certified(certified: Result<Material, RuntimeError>)
    | Authorized(authorized: Result<nat, RuntimeError>)
    | Acknowledged(acknowledged: Result<(), RuntimeError>)
    | Consumed(consumed: Result<AppApproval, RuntimeError>)

  /** What a running process answers; boots, crashes and calls without a process answer nothing. */
  ghost function AnswerOf(w: World, op: Op): Answer {
    if !w.up then Silent
    else
      match op
      case OpStart(peer, request, secret, now, creation, faults) =>
        Challenged(Start(w.m, peer, request, secret, now, creation, faults).1)
      case OpSubmit(peer, id, challenge, code, now, certificate, faults) =>
        Certified(Submit(w.m, peer, id, challenge, code, now, certificate, faults).1)
      case OpReconcile(approval, coreBinding, session, now, faults) =>
        Certified(Reconcile(w.m, approval, coreBinding, session, now, faults).1)
      case OpAuthorize(core, approval, appCsr, now, faults) =>
        Authorized(AuthorizeFirstApp(w.m, core, approval, appCsr, now, faults).1)
      case OpConfirm(core, approval, appCsr, generation, now, faults) =>
        Acknowledged(ConfirmFirstApp(w.m, core, approval, appCsr, generation, now, faults).1)
      case OpStartApp(core, q, secret, now, creation, faults) =>
        Challenged(StartApp(w.m, core, q, secret, now, creation, faults).1)
      case OpSubmitApp(core, id, challenge, code, csrMatches, appCsr, now, faults) =>
        Consumed(SubmitApp(w.m, core, id, challenge, code, csrMatches, appCsr, now, faults).1)
      case OpAbort(id, faults) => Acknowledged(Abort(w.m, id, faults).1)
      case _ => Silent
  }

  datatype Event = Event(op: Op, answer: Answer)

  /** Every call so far with its answer. */
  ghost function Trace(w: World, ops: seq<Op>, before: seq<Event>): seq<Event>
    decreases |ops|
  {
    if ops == [] then before else Trace(Step(w, ops[0]), ops[1..], before + [Event(ops[0], AnswerOf(w, ops[0]))])
  }

  /** A start of this peer for this request, answered with this challenge. */
  predicate Starts(e: Event, peer: Peer, q: Request, secret: Code, c: Challenge) {
    && e.op.OpStart? && e.answer == Challenged(Ok(c))
    && e.op.peer == peer && e.op.request == Some(q) && e.op.secret == secret
    && c.challenge == c.id + 2 && c.expires == e.op.now + CODE_TTL
  }

  predicate StartsApp(e: Event, core: Digest, q: Request, secret: Code, c: Challenge) {
    && e.op.OpStartApp? && e.answer == Challenged(Ok(c))
    && e.op.core == core && e.op.q == q && e.op.secret == secret
    && c.challenge == c.id + 1 && c.expires == e.op.now + CODE_TTL
  }

  /** The submission of the start's peer with its challenge and secret, in time, for which a certificate was obtained. */
  predicate Submits(e: Event, peer: Peer, secret: Code, c: Challenge) {
    && e.op.OpSubmit? && e.op.peer == peer && e.op.id == c.id && e.op.challenge == c.challenge
    && e.op.code == Some(secret) && e.op.now <= c.expires && e.op.certificate.Some?
  }

  /** A confirmation by this Core of this approval, for its App CSR and generation. */
  predicate Confirms(e: Event, id: Id, a: CoreApproval) {
    && e.op.OpConfirm? && e.op.approval == id
    && e.op.core == a.coreIdentity && e.op.appCsr == a.appCsr && e.op.generation == a.generation
  }

  // ---------------------------------------------------------------- what memory and file hold was asked for

  /** The attempt `id` is what an answered start made, and nothing else. */
  predicate MadeBy(e: Event, id: Id, a: Attempt) {
    && Starts(e, a.peer, Request(a.appCsr, a.coreBinding, a.session, a.generation), a.code, Challenge(id, a.challenge, a.expires))
    && a.approval == id + 1 && a.hardExpires == e.op.now + HARD_LIFETIME
  }

  predicate MadeAppBy(e: Event, id: Id, a: AppApproval) {
    StartsApp(e, a.coreIdentity, Request(a.appCsr, a.coreBinding, a.session, a.generation), a.code, Challenge(id, a.challenge, a.expires))
  }

  /** The approval is what the submission `e` obtained for the start `s`. */
  predicate IssuedBy(s: Event, e: Event, id: Id, a: CoreApproval) {
    && s.op.OpStart? && s.op.request.Some? && s.answer.Challenged? && s.answer.challenged.Ok?
    && var q, c := s.op.request.value, s.answer.challenged.value;
    && Starts(s, s.op.peer, q, s.op.secret, c) && Submits(e, s.op.peer, s.op.secret, c)
    && id == c.id + 1
    && a.appCsr == q.appCsr && a.coreBinding == q.coreBinding && a.session == q.session && a.generation == q.generation
    && var cert := e.op.certificate.value;
    && a.coreIdentity == cert.identity && a.issued == Material(id, cert.identity, cert.chain, cert.notAfter)
    && (!a.confirmed ==> a.recoveryExpires == e.op.now + RECOVERY_TTL)
  }

  /** A start and a later submission of it made the approval; if it is confirmed, a still later call confirmed it in time. */
  predicate Justified(trace: seq<Event>, id: Id, a: CoreApproval) {
    exists i, j | 0 <= i < j < |trace| && IssuedBy(trace[i], trace[j], id, a) ::
      a.confirmed ==> exists k | j < k < |trace| :: Confirms(trace[k], id, a) && trace[k].op.now <= trace[j].op.now + RECOVERY_TTL
  }

  predicate AllJustified(trace: seq<Event>, core: map<Id, CoreApproval>) {
    forall id {:trigger Justified(trace, id, core[id])} | id in core :: Justified(trace, id, core[id])
  }

  predicate Made(trace: seq<Event>, id: Id, a: Attempt) {
    exists i :: 0 <= i < |trace| && MadeBy(trace[i], id, a)
  }

  predicate MadeApp(trace: seq<Event>, id: Id, a: AppApproval) {
    exists i :: 0 <= i < |trace| && MadeAppBy(trace[i], id, a)
  }

  predicate AllMade(trace: seq<Event>, s: State) {
    && (forall id {:trigger Made(trace, id, s.attempts[id])} | id in s.attempts :: Made(trace, id, s.attempts[id]))
    && (forall id {:trigger MadeApp(trace, id, s.app[id])} | id in s.app :: MadeApp(trace, id, s.app[id]))
  }

  /** In memory while a process runs, and always on disk. */
  ghost predicate Accounted(w: World, trace: seq<Event>) {
    && WorldInv(w)
    && AllJustified(trace, Durability.OnDisk(w.m.file))
    && (w.up ==> AllJustified(trace, w.m.state.core) && AllMade(trace, w.m.state))
  }

  lemma LaterJustified(trace: seq<Event>, longer: seq<Event>, id: Id, a: CoreApproval)
    requires Justified(trace, id, a) && trace <= longer
    ensures Justified(longer, id, a)
  {
    var i, j :| 0 <= i < j < |trace| && IssuedBy(trace[i], trace[j], id, a)
             && (a.confirmed ==> exists k | j < k < |trace| :: Confirms(trace[k], id, a) && trace[k].op.now <= trace[j].op.now + RECOVERY_TTL);
    assert IssuedBy(longer[i], longer[j], id, a);
    if a.confirmed {
      var k :| j < k < |trace| && Confirms(trace[k], id, a) && trace[k].op.now <= trace[j].op.now + RECOVERY_TTL;
      assert Confirms(longer[k], id, a);
    }
  }

  // ---------------------------------------------------------------- how one call moves memory

  /** An attempt after a call: as it was but for its counted failures, or made by this call. */
  predicate AttemptMoves(m: Machine, e: Event, id: Id, a: Attempt) {
    (id in m.state.attempts && a == m.state.attempts[id].(failures := a.failures)) || MadeBy(e, id, a)
  }

  predicate AppMoves(m: Machine, e: Event, id: Id, a: AppApproval) {
    (id in m.state.app && a == m.state.app[id].(failures := a.failures)) || MadeAppBy(e, id, a)
  }

  /** The approval this submission obtains for its attempt. */
  predicate Obtains(m: Machine, op: Op, id: Id, a: CoreApproval) {
    && op.OpSubmit? && op.id in m.state.attempts && op.certificate.Some?
    && var t := m.state.attempts[op.id];
    && op.peer == t.peer && op.challenge == t.challenge && op.code == Some(t.code) && op.now <= t.expires && id == t.approval
    && var c := op.certificate.value;
       a == CoreApproval(c.identity, t.appCsr, t.coreBinding, t.session, t.generation, false, op.now + RECOVERY_TTL,
                         Material(id, c.identity, c.chain, c.notAfter))
  }

  /** An approval after a call: as it was, confirmed by this call, or obtained by it. */
  predicate CoreMoves(m: Machine, op: Op, id: Id, a: CoreApproval) {
    || (id in m.state.core && a == m.state.core[id])
    || (id in m.state.core && a == Confirmed(m.state.core[id]) && !m.state.core[id].confirmed
        && Confirms(Event(op, Silent), id, a) && op.now <= m.state.core[id].recoveryExpires)
    || Obtains(m, op, id, a)
  }

  predicate Moves(m: Machine, e: Event, n: Machine) {
    && (forall id {:trigger AttemptMoves(m, e, id, n.state.attempts[id])} | id in n.state.attempts :: AttemptMoves(m, e, id, n.state.attempts[id]))
    && (forall id {:trigger AppMoves(m, e, id, n.state.app[id])} | id in n.state.app :: AppMoves(m, e, id, n.state.app[id]))
    && (forall id {:trigger CoreMoves(m, e.op, id, n.state.core[id])} | id in n.state.core :: CoreMoves(m, e.op, id, n.state.core[id]))
  }

  /** Nothing new, nothing changed. */
  predicate Drops(m: Machine, n: Machine) {
    && (forall id | id in n.state.attempts :: id in m.state.attempts && n.state.attempts[id] == m.state.attempts[id])
    && (forall id | id in n.state.app :: id in m.state.app && n.state.app[id] == m.state.app[id])
    && (forall id | id in n.state.core :: id in m.state.core && n.state.core[id] == m.state.core[id])
  }

  lemma DroppingMoves(m: Machine, e: Event, n: Machine)
    requires Drops(m, n)
    ensures Moves(m, e, n)
  {
  }

  lemma MovesFromDropped(m: Machine, k: Machine, e: Event, n: Machine)
    requires Drops(m, k) && Moves(k, e, n) && !e.op.OpSubmit? && !e.op.OpConfirm?
    ensures Moves(m, e, n)
  {
    forall id | id in n.state.attempts ensures AttemptMoves(m, e, id, n.state.attempts[id]) {
      assert AttemptMoves(k, e, id, n.state.attempts[id]);
    }
    forall id | id in n.state.app ensures AppMoves(m, e, id, n.state.app[id]) {
      assert AppMoves(k, e, id, n.state.app[id]);
    }
    forall id | id in n.state.core ensures CoreMoves(m, e.op, id, n.state.core[id]) {
      assert CoreMoves(k, e.op, id, n.state.core[id]);
    }
  }

  lemma SweepDrops(m: Machine, now: nat, faults: Faults)
    ensures Drops(m, Sweep(m, now, faults).0) && Sweep(m, now, faults).0.nextId == m.nextId
    ensures Sweep(m, now, faults).0.session == m.session
  {
  }

  /** Kept with its answer, or rolled back with an error. */
  lemma HoldingMoves(m: Machine, before: Machine, after: Machine, w: WorkspaceId, session: Session, faults: Faults, e: Event)
    requires Drops(m, before) && (KeepOrRollBack(before, after, w, session, faults).1 ==> Moves(m, e, after))
    ensures Moves(m, e, KeepOrRollBack(before, after, w, session, faults).0)
  {
    var (n, ok) := KeepOrRollBack(before, after, w, session, faults);
    if ok {
      assert n.state == after.state;
    } else {
      assert Drops(m, n);
    }
  }

  lemma OpenAttemptMoves(m: Machine, op: Op, q: Request)
    requires op.OpStart? && op.request == Some(q)
    ensures var (n, answer) := OpenAttempt(m, op.peer, q, op.secret, op.now, op.creation, op.faults);
      Moves(m, Event(op, Challenged(answer)), n)
  {
    var (n, answer) := OpenAttempt(m, op.peer, q, op.secret, op.now, op.creation, op.faults);
    var e, minted := Event(op, Challenged(answer)), m.(nextId := m.nextId + 3);
    OpenAttemptShape(m, op.peer, q, op.secret, op.now, op.creation, op.faults);
    if op.now + HARD_LIFETIME <= U64_MAX && Create(op.creation).Ok? {
      var a := NewAttempt(m, op.peer, q, op.secret, op.now, Create(op.creation).value);
      var after := WithAttempt(minted, m.nextId, a);
      if answer.Ok? {
        assert MadeBy(e, m.nextId, a);
        forall id | id in after.state.attempts ensures AttemptMoves(m, e, id, after.state.attempts[id]) {
        }
      }
      HoldingMoves(m, minted, after, a.workspace, a.session, op.faults, e);
    }
  }

  lemma OpenApprovalMoves(m: Machine, op: Op)
    requires op.OpStartApp?
    ensures var (n, answer) := OpenApproval(m, op.core, op.q, op.secret, op.now, op.creation, op.faults);
      Moves(m, Event(op, Challenged(answer)), n)
  {
    var (n, answer) := OpenApproval(m, op.core, op.q, op.secret, op.now, op.creation, op.faults);
    var e, minted := Event(op, Challenged(answer)), m.(nextId := m.nextId + 2);
    OpenApprovalShape(m, op.core, op.q, op.secret, op.now, op.creation, op.faults);
    if op.now + CODE_TTL <= U64_MAX && Create(op.creation).Ok? {
      var a := NewApproval(m, op.core, op.q, op.secret, op.now, Create(op.creation).value);
      var after := WithApp(minted, m.nextId, a);
      if answer.Ok? {
        assert MadeAppBy(e, m.nextId, a);
        forall id | id in after.state.app ensures AppMoves(m, e, id, after.state.app[id]) {
        }
      }
      HoldingMoves(m, minted, after, a.workspace, a.session, op.faults, e);
    }
  }

  lemma BeginMoves(m: Machine, op: Op, q: Request)
    requires op.OpStart? && op.request == Some(q)
    ensures var (n, answer) := Begin(m, op.peer, q, op.secret, op.now, op.creation, op.faults);
      Moves(m, Event(op, Challenged(answer)), n)
  {
    var (n, answer) := Begin(m, op.peer, q, op.secret, op.now, op.creation, op.faults);
    var counted := m.(state := m.state.(starts := Record(Prune(m.state.starts, op.now), op.peer, op.now)));
    OpenAttemptMoves(counted, op, q);
    if n == OpenAttempt(counted, op.peer, q, op.secret, op.now, op.creation, op.faults).0
       && answer == OpenAttempt(counted, op.peer, q, op.secret, op.now, op.creation, op.faults).1 {
      MovesFromDropped(m, counted, Event(op, Challenged(answer)), n);
    } else {
      DroppingMoves(m, Event(op, Challenged(answer)), n);
    }
  }

  lemma StartMoves(m: Machine, op: Op)
    requires op.OpStart?
    ensures var (n, answer) := Start(m, op.peer, op.request, op.secret, op.now, op.creation, op.faults);
      Moves(m, Event(op, Challenged(answer)), n)
  {
    var (n, answer) := Start(m, op.peer, op.request, op.secret, op.now, op.creation, op.faults);
    var e := Event(op, Challenged(answer));
    if RequestRefusal(m, op.request).None? {
      var (swept, result) := Sweep(m, op.now, op.faults);
      SweepDrops(m, op.now, op.faults);
      if result.Ok? {
        BeginMoves(swept, op, op.request.value);
        MovesFromDropped(m, swept, e, n);
      } else {
        DroppingMoves(m, e, n);
      }
    } else {
      DroppingMoves(m, e, n);
    }
  }

  lemma BeginAppMoves(m: Machine, op: Op)
    requires op.OpStartApp?
    ensures var (n, answer) := BeginApp(m, op.core, op.q, op.secret, op.now, op.creation, op.faults);
      Moves(m, Event(op, Challenged(answer)), n)
  {
    OpenApprovalMoves(m, op);
    var (n, answer) := BeginApp(m, op.core, op.q, op.secret, op.now, op.creation, op.faults);
    if AppRefusal(m.state, op.core, op.q).Some? {
      DroppingMoves(m, Event(op, Challenged(answer)), n);
    }
  }

  lemma StartAppMoves(m: Machine, op: Op)
    requires op.OpStartApp?
    ensures var (n, answer) := StartApp(m, op.core, op.q, op.secret, op.now, op.creation, op.faults);
      Moves(m, Event(op, Challenged(answer)), n)
  {
    var (n, answer) := StartApp(m, op.core, op.q, op.secret, op.now, op.creation, op.faults);
    var e := Event(op, Challenged(answer));
    if ValidSession(op.q.session) && RequestRefusal(m, Some(op.q)).None? {
      var (swept, result) := Sweep(m, op.now, op.faults);
      SweepDrops(m, op.now, op.faults);
      if result.Ok? {
        BeginAppMoves(swept, op);
        MovesFromDropped(m, swept, e, n);
      } else {
        DroppingMoves(m, e, n);
      }
    } else {
      DroppingMoves(m, e, n);
    }
  }

  lemma EndingDrops(m: Machine, id: Id, error: RuntimeError, faults: Faults)
    ensures id in m.state.attempts ==> Drops(m, EndAttempt(m, id, error, faults).0)
    ensures id in m.state.app ==> Drops(m, EndApp(m, id, faults).0)
  {
  }

  lemma WrongCodeKeepsAttempts(m: Machine, e: Event, id: Id, faults: Faults)
    requires id in m.state.attempts
    ensures Moves(m, e, CountWrongCode(m, id, faults).0)
  {
    var a := m.state.attempts[id].(failures := Counted(m.state.attempts[id].failures));
    var counted := m.(state := m.state.(attempts := m.state.attempts[id := a]));
    EndingDrops(counted, id, CodeRateLimited, faults);
  }

  lemma WrongAppCodeKeepsApprovals(m: Machine, e: Event, id: Id, faults: Faults)
    requires id in m.state.app
    ensures Moves(m, e, CountWrongAppCode(m, id, faults).0)
  {
    var a := m.state.app[id].(failures := Counted(m.state.app[id].failures));
    var counted := m.(state := m.state.(app := m.state.app[id := a]));
    EndingDrops(counted, id, CodeRateLimited, faults);
  }

  lemma IssuingObtains(m: Machine, op: Op, e: Event)
    requires op.OpSubmit? && e.op == op && SubmitRefusal(m, op.peer, op.id, op.challenge, op.code).None?
    requires m.state.attempts[op.id].code == op.code.value && op.now <= m.state.attempts[op.id].expires
    ensures Moves(m, e, IssueFor(m, op.id, op.now, op.certificate, op.faults).0)
  {
    var n := IssueFor(m, op.id, op.now, op.certificate, op.faults).0;
    forall id | id in n.state.core ensures CoreMoves(m, op, id, n.state.core[id]) {
    }
  }

  lemma SubmitMoves(m: Machine, op: Op, e: Event)
    requires op.OpSubmit? && e.op == op
    ensures Moves(m, e, Submit(m, op.peer, op.id, op.challenge, op.code, op.now, op.certificate, op.faults).0)
  {
    if SubmitRefusal(m, op.peer, op.id, op.challenge, op.code).None? {
      var a := m.state.attempts[op.id];
      if op.now > a.expires || op.now > a.hardExpires {
        EndingDrops(m, op.id, Expired, op.faults);
        DroppingMoves(m, e, EndAttempt(m, op.id, Expired, op.faults).0);
      } else if a.code != op.code.value {
        WrongCodeKeepsAttempts(m, e, op.id, op.faults);
      } else if CloseSucceeds(a.workspace, op.faults.closes) {
        IssuingObtains(m, op, e);
      } else {
        DroppingMoves(m, e, m);
      }
    } else {
      DroppingMoves(m, e, m);
    }
  }

  lemma SubmitAppMoves(m: Machine, op: Op, e: Event)
    requires op.OpSubmitApp?
    ensures Moves(m, e, SubmitApp(m, op.core, op.id, op.challenge, op.code, op.csrMatches, op.appCsr, op.now, op.faults).0)
  {
    if SubmitAppRefusal(m, op.core, op.id, op.challenge, op.code, op.csrMatches, op.appCsr).None? {
      EndingDrops(m, op.id, Expired, op.faults);
      WrongAppCodeKeepsApprovals(m, e, op.id, op.faults);
      DroppingMoves(m, e, EndApp(m, op.id, op.faults).0);
    } else {
      DroppingMoves(m, e, m);
    }
  }

  lemma RemovingDrops(m: Machine, approval: Id, faults: Faults)
    ensures Drops(m, RemoveLapsed(m, approval, faults).0)
  {
  }

  lemma ConfirmingMoves(m: Machine, op: Op, e: Event)
    requires op.OpConfirm? && e.op == op && op.approval in m.state.core && !m.state.core[op.approval].confirmed
    requires Confirms(Event(op, Silent), op.approval, m.state.core[op.approval]) && op.now <= m.state.core[op.approval].recoveryExpires
    ensures Moves(m, e, WithConfirmed(m, op.approval))
  {
    var n := WithConfirmed(m, op.approval);
    forall id | id in n.state.core ensures CoreMoves(m, op, id, n.state.core[id]) {
    }
  }

  lemma ConfirmMoves(m: Machine, op: Op, e: Event)
    requires op.OpConfirm? && e.op == op
    ensures Moves(m, e, ConfirmFirstApp(m, op.core, op.approval, op.appCsr, op.generation, op.now, op.faults).0)
  {
    var n := ConfirmFirstApp(m, op.core, op.approval, op.appCsr, op.generation, op.now, op.faults).0;
    if ApprovalLapsed(m, op.approval, op.now) {
      RemovingDrops(m, op.approval, op.faults);
      DroppingMoves(m, e, n);
    } else if n.state == m.state {
      DroppingMoves(m, e, n);
    } else {
      ConfirmingMoves(m, op, e);
      assert n.state == WithConfirmed(m, op.approval).state;
    }
  }

  lemma AbortDrops(m: Machine, id: Id, faults: Faults)
    ensures Drops(m, Abort(m, id, faults).0)
  {
  }

  lemma AuthorizeDrops(m: Machine, core: Digest, approval: Id, appCsr: Digest, now: nat, faults: Faults)
    ensures Drops(m, AuthorizeFirstApp(m, core, approval, appCsr, now, faults).0)
  {
  }

  lemma OthersDrop(m: Machine, op: Op)
    requires op.OpAbort? || op.OpAuthorize? || op.OpReconcile?
    ensures Drops(m, StepMachine(m, op))
  {
    if op.OpAbort? {
      AbortDrops(m, op.id, op.faults);
    } else if op.OpAuthorize? {
      AuthorizeDrops(m, op.core, op.approval, op.appCsr, op.now, op.faults);
    } else {
      ReconcileOnlySweeps(m, op.approval, op.coreBinding, op.session, op.now, op.faults);
      SweepDrops(m, op.now, op.faults);
    }
  }

  lemma StepMoves(w: World, op: Op)
    requires w.up && !op.OpBoot? && !op.OpCrash?
    ensures Moves(w.m, Event(op, AnswerOf(w, op)), StepMachine(w.m, op))
  {
    var e := Event(op, AnswerOf(w, op));
    match op
    case OpStart(_, _, _, _, _, _) => StartMoves(w.m, op);
    case OpStartApp(_, _, _, _, _, _) => StartAppMoves(w.m, op);
    case OpSubmit(_, _, _, _, _, _, _) => SubmitMoves(w.m, op, e);
    case OpSubmitApp(_, _, _, _, _, _, _, _) => SubmitAppMoves(w.m, op, e);
    case OpConfirm(_, _, _, _, _, _) => ConfirmMoves(w.m, op, e);
    case OpAbort(_, _) => OthersDrop(w.m, op); DroppingMoves(w.m, e, StepMachine(w.m, op));
    case OpAuthorize(_, _, _, _, _) => OthersDrop(w.m, op); DroppingMoves(w.m, e, StepMachine(w.m, op));
    case OpReconcile(_, _, _, _, _) => OthersDrop(w.m, op); DroppingMoves(w.m, e, StepMachine(w.m, op));
  }

  // ---------------------------------------------------------------- the whole run

  lemma LaterMade(trace: seq<Event>, longer: seq<Event>, s: State)
    requires AllMade(trace, s) && trace <= longer
    ensures AllMade(longer, s)
  {
    forall id | id in s.attempts ensures Made(longer, id, s.attempts[id]) {
      assert Made(trace, id, s.attempts[id]);
      var i :| 0 <= i < |trace| && MadeBy(trace[i], id, s.attempts[id]);
      assert MadeBy(longer[i], id, s.attempts[id]);
    }
    forall id | id in s.app ensures MadeApp(longer, id, s.app[id]) {
      assert MadeApp(trace, id, s.app[id]);
      var i :| 0 <= i < |trace| && MadeAppBy(trace[i], id, s.app[id]);
      assert MadeAppBy(longer[i], id, s.app[id]);
    }
  }

  lemma MovedAreMade(m: Machine, e: Event, n: Machine, trace: seq<Event>)
    requires AllMade(trace, m.state) && Moves(m, e, n)
    ensures AllMade(trace + [e], n.state)
  {
    var longer := trace + [e];
    LaterMade(trace, longer, m.state);
    assert longer[|trace|] == e;
    forall id | id in n.state.attempts ensures Made(longer, id, n.state.attempts[id]) {
      assert AttemptMoves(m, e, id, n.state.attempts[id]);
      if id in m.state.attempts { assert Made(longer, id, m.state.attempts[id]); }
    }
    forall id | id in n.state.app ensures MadeApp(longer, id, n.state.app[id]) {
      assert AppMoves(m, e, id, n.state.app[id]);
      if id in m.state.app { assert MadeApp(longer, id, m.state.app[id]); }
    }
  }

  lemma ConfirmedIsJustified(trace: seq<Event>, e: Event, id: Id, a: CoreApproval)
    requires Justified(trace, id, a) && !a.confirmed && Confirms(e, id, a) && e.op.now <= a.recoveryExpires
    ensures Justified(trace + [e], id, Confirmed(a))
  {
    var longer := trace + [e];
    var i, j :| 0 <= i < j < |trace| && IssuedBy(trace[i], trace[j], id, a);
    assert IssuedBy(longer[i], longer[j], id, Confirmed(a));
    assert Confirms(longer[|trace|], id, Confirmed(a));
  }

  lemma ObtainedIsJustified(m: Machine, trace: seq<Event>, e: Event, id: Id, a: CoreApproval)
    requires AllMade(trace, m.state) && Obtains(m, e.op, id, a)
    ensures Justified(trace + [e], id, a)
  {
    var longer, t := trace + [e], m.state.attempts[e.op.id];
    assert Made(trace, e.op.id, t);
    var i :| 0 <= i < |trace| && MadeBy(trace[i], e.op.id, t);
    assert IssuedBy(longer[i], longer[|trace|], id, a);
  }

  lemma MovedAreJustified(m: Machine, e: Event, n: Machine, trace: seq<Event>)
    requires AllMade(trace, m.state) && AllJustified(trace, m.state.core) && Moves(m, e, n)
    ensures AllJustified(trace + [e], n.state.core)
  {
    forall id | id in n.state.core ensures Justified(trace + [e], id, n.state.core[id]) {
      assert CoreMoves(m, e.op, id, n.state.core[id]);
      if id in m.state.core {
        assert Justified(trace, id, m.state.core[id]);
        LaterJustified(trace, trace + [e], id, m.state.core[id]);
      }
      if Obtains(m, e.op, id, n.state.core[id]) {
        ObtainedIsJustified(m, trace, e, id, n.state.core[id]);
      } else if n.state.core[id] != m.state.core[id] {
        ConfirmedIsJustified(trace, e, id, m.state.core[id]);
      }
    }
  }

  lemma LaterAllJustified(trace: seq<Event>, longer: seq<Event>, core: map<Id, CoreApproval>)
    requires AllJustified(trace, core) && trace <= longer
    ensures AllJustified(longer, core)
  {
    forall id | id in core ensures Justified(longer, id, core[id]) {
      assert Justified(trace, id, core[id]);
      LaterJustified(trace, longer, id, core[id]);
    }
  }

  lemma StepAccounts(w: World, op: Op, trace: seq<Event>)
    requires Accounted(w, trace)
    ensures Accounted(Step(w, op), trace + [Event(op, AnswerOf(w, op))])
  {
    var e := Event(op, AnswerOf(w, op));
    var longer, n := trace + [e], Step(w, op);
    StepKeepsInv(w, op);
    LaterAllJustified(trace, longer, Durability.OnDisk(w.m.file));
    if w.up && !op.OpBoot? && !op.OpCrash? {
      StepMoves(w, op);
      MovedAreMade(w.m, e, n.m, trace);
      MovedAreJustified(w.m, e, n.m, trace);
      Durability.StepFollows(w.m, op);
      Durability.FollowingDisk(w.m, n.m);
    } else if !w.up && op.OpBoot? {
      if Boot(w.m, op.session, op.readFails).Some? { Durability.BootReadsDisk(w.m, op.session, op.readFails); }
    } else if w.up {
      LaterAllJustified(trace, longer, w.m.state.core);
      LaterMade(trace, longer, w.m.state);
    }
  }

  lemma {:induction false} RunAccounts(w: World, ops: seq<Op>, trace: seq<Event>)
    requires Accounted(w, trace)
    ensures Accounted(Run(w, ops), Trace(w, ops, trace))
    decreases |ops|
  {
    if ops != [] {
      StepAccounts(w, ops[0], trace);
      RunAccounts(Step(w, ops[0]), ops[1..], trace + [Event(ops[0], AnswerOf(w, ops[0]))]);
    }
  }

  // ---------------------------------------------------------------- what the trace holds

  lemma {:induction false} TraceHolds(w: World, ops: seq<Op>, before: seq<Event>, i: nat)
    requires i <= |ops|
    ensures |Trace(w, ops, before)| == |before| + |ops| && before <= Trace(w, ops, before)
    ensures Trace(w, ops, before)[..|before| + i] == Trace(w, ops[..i], before)
    ensures i < |ops| ==> Trace(w, ops, before)[|before| + i] == Event(ops[i], AnswerOf(Run(w, ops[..i]), ops[i]))
    decreases |ops|
  {
    if ops != [] {
      var next := before + [Event(ops[0], AnswerOf(w, ops[0]))];
      TraceHolds(Step(w, ops[0]), ops[1..], next, if i == 0 then 0 else i - 1);
      if i == 0 {
        assert Trace(w, ops, before)[..|before|] == before == Trace(w, ops[..0], before);
        assert ops[..0] == [];
      } else {
        assert ops[..i][1..] == ops[1..][..i - 1] && ops[..i][0] == ops[0];
      }
    }
  }

  /** The calls so far, each with the answer it got in the run. */
  ghost function History(ops: seq<Op>): seq<Event> {
    Trace(EMPTY_WORLD, ops, [])
  }

  lemma HistoryIsTheRun(ops: seq<Op>, i: nat)
    requires i < |ops|
    ensures |History(ops)| == |ops| && History(ops)[..i] == History(ops[..i])
    ensures History(ops)[i] == Event(ops[i], AnswerOf(Run(EMPTY_WORLD, ops[..i]), ops[i]))
  {
    TraceHolds(EMPTY_WORLD, ops, [], i);
  }

  lemma RunIsAccounted(ops: seq<Op>)
    ensures Accounted(Run(EMPTY_WORLD, ops), History(ops)) && |History(ops)| == |ops|
  {
    RunAccounts(EMPTY_WORLD, ops, []);
    TraceHolds(EMPTY_WORLD, ops, [], 0);
  }

  // ---------------------------------------------------------------- identifiers are new and used once

  predicate Challenges(e: Event) {
    e.answer.Challenged? && e.answer.challenged.Ok?
  }

  /** What the call of this event returned or used up is never returned or found again. */
  predicate NumberedAt(w: World, e: Event) {
    && (Challenges(e) ==> e.answer.challenged.value.id < w.m.nextId)
    && (e.op.OpSubmit? && e.answer.Certified? && e.answer.certified.Ok? ==>
          e.op.id < w.m.nextId && (w.up ==> e.op.id !in w.m.state.attempts))
    && (e.op.OpSubmitApp? && e.answer.Consumed? && e.answer.consumed.Ok? ==>
          e.op.id < w.m.nextId && (w.up ==> e.op.id !in w.m.state.app))
  }

  predicate Distinct(trace: seq<Event>) {
    forall i, j | 0 <= i < j < |trace| && Challenges(trace[i]) && Challenges(trace[j]) ::
      trace[i].answer.challenged.value.id < trace[j].answer.challenged.value.id
  }

  predicate Numbered(w: World, trace: seq<Event>) {
    Distinct(trace) && forall i {:trigger trace[i]} | 0 <= i < |trace| :: NumberedAt(w, trace[i])
  }

  lemma OpeningsMint(m: Machine, peer: Peer, core: Digest, q: Request, code: Code, now: nat, creation: Creation, faults: Faults)
    ensures var (n, answer) := OpenAttempt(m, peer, q, code, now, creation, faults);
      answer.Ok? ==> answer.value.id == m.nextId < n.nextId
    ensures var (n, answer) := OpenApproval(m, core, q, code, now, creation, faults);
      answer.Ok? ==> answer.value.id == m.nextId < n.nextId
  {
  }

  lemma BeginMints(m: Machine, peer: Peer, q: Request, code: Code, now: nat, creation: Creation, faults: Faults)
    ensures var (n, answer) := Begin(m, peer, q, code, now, creation, faults);
      answer.Ok? ==> answer.value.id == m.nextId < n.nextId
  {
    var counted := m.(state := m.state.(starts := Record(Prune(m.state.starts, now), peer, now)));
    OpeningsMint(counted, peer, 0, q, code, now, creation, faults);
  }

  lemma StartMints(m: Machine, peer: Peer, request: Option<Request>, code: Code, now: nat, creation: Creation, faults: Faults)
    ensures var (n, answer) := Start(m, peer, request, code, now, creation, faults);
      answer.Ok? ==> answer.value.id == m.nextId < n.nextId
  {
    if request.Some? {
      SweepDrops(m, now, faults);
      BeginMints(Sweep(m, now, faults).0, peer, request.value, code, now, creation, faults);
    }
  }

  lemma BeginAppMints(m: Machine, core: Digest, q: Request, code: Code, now: nat, creation: Creation, faults: Faults)
    ensures var (n, answer) := BeginApp(m, core, q, code, now, creation, faults);
      answer.Ok? ==> answer.value.id == m.nextId < n.nextId
  {
    OpeningsMint(m, 0, core, q, code, now, creation, faults);
  }

  lemma StartAppMints(m: Machine, core: Digest, q: Request, code: Code, now: nat, creation: Creation, faults: Faults)
    ensures var (n, answer) := StartApp(m, core, q, code, now, creation, faults);
      answer.Ok? ==> answer.value.id == m.nextId < n.nextId
  {
    SweepDrops(m, now, faults);
    BeginAppMints(Sweep(m, now, faults).0, core, q, code, now, creation, faults);
  }

  lemma SubmissionsUseUp(m: Machine, op: Op)
    ensures op.OpSubmit? && Submit(m, op.peer, op.id, op.challenge, op.code, op.now, op.certificate, op.faults).1.Ok? ==>
              op.id in m.state.attempts && op.id !in StepMachine(m, op).state.attempts
    ensures op.OpSubmitApp? && SubmitApp(m, op.core, op.id, op.challenge, op.code, op.csrMatches, op.appCsr, op.now, op.faults).1.Ok? ==>
              op.id in m.state.app && op.id !in StepMachine(m, op).state.app
  {
  }

  lemma StepMints(w: World, op: Op)
    requires w.up && !op.OpBoot? && !op.OpCrash?
    ensures w.m.nextId <= StepMachine(w.m, op).nextId
    ensures var answer := AnswerOf(w, op);
      answer.Challenged? && answer.challenged.Ok? ==> answer.challenged.value.id == w.m.nextId < StepMachine(w.m, op).nextId
  {
    match op
    case OpStart(peer, request, secret, now, creation, faults) =>
      Theorems.QuietStepCarries(w.m, op);
      StartMints(w.m, peer, request, secret, now, creation, faults);
    case OpStartApp(core, q, secret, now, creation, faults) =>
      Theorems.QuietStepCarries(w.m, op);
      StartAppMints(w.m, core, q, secret, now, creation, faults);
    case OpSubmit(_, _, _, _, _, _, _) => Theorems.SubmitMoves(w.m, op);
    case OpSubmitApp(_, _, _, _, _, _, _, _) => Theorems.SubmitAppMoves(w.m, op);
    case _ => Theorems.QuietStepCarries(w.m, op);
  }

  /** What was used up stays so: what is new has a new identifier. */
  lemma StaysNumbered(w: World, op: Op, earlier: Event)
    requires w.up && !op.OpBoot? && !op.OpCrash? && NumberedAt(w, earlier)
    ensures NumberedAt(Step(w, op), earlier)
  {
    var e, n := Event(op, AnswerOf(w, op)), StepMachine(w.m, op);
    StepMints(w, op);
    StepMoves(w, op);
    if earlier.op.OpSubmit? && earlier.op.id in n.state.attempts { assert AttemptMoves(w.m, e, earlier.op.id, n.state.attempts[earlier.op.id]); }
    if earlier.op.OpSubmitApp? && earlier.op.id in n.state.app { assert AppMoves(w.m, e, earlier.op.id, n.state.app[earlier.op.id]); }
  }

  lemma NewIsNumbered(w: World, op: Op)
    requires w.up && WorldInv(w) && !op.OpBoot? && !op.OpCrash?
    ensures NumberedAt(Step(w, op), Event(op, AnswerOf(w, op)))
  {
    StepMints(w, op);
    SubmissionsUseUp(w.m, op);
  }

  lemma StepNumbers(w: World, op: Op, trace: seq<Event>)
    requires WorldInv(w) && Numbered(w, trace)
    ensures Numbered(Step(w, op), trace + [Event(op, AnswerOf(w, op))])
  {
    var e := Event(op, AnswerOf(w, op));
    var longer, n := trace + [e], Step(w, op);
    if w.up && !op.OpBoot? && !op.OpCrash? {
      NewIsNumbered(w, op);
      StepMints(w, op);
      forall i | 0 <= i < |longer| ensures NumberedAt(n, longer[i]) {
        if i < |trace| {
          assert longer[i] == trace[i];
          StaysNumbered(w, op, trace[i]);
        }
      }
      forall i, j | 0 <= i < j < |longer| && Challenges(longer[i]) && Challenges(longer[j])
        ensures longer[i].answer.challenged.value.id < longer[j].answer.challenged.value.id
      {
        assert longer[i] == trace[i] && NumberedAt(w, trace[i]);
      }
    } else {
      forall i | 0 <= i < |longer| ensures NumberedAt(n, longer[i]) {
        if i < |trace| { assert longer[i] == trace[i] && NumberedAt(w, trace[i]); }
      }
    }
  }

  lemma {:induction false} RunNumbers(w: World, ops: seq<Op>, trace: seq<Event>)
    requires WorldInv(w) && Numbered(w, trace)
    ensures Numbered(Run(w, ops), Trace(w, ops, trace))
    decreases |ops|
  {
    if ops != [] {
      StepKeepsInv(w, ops[0]);
      StepNumbers(w, ops[0], trace);
      RunNumbers(Step(w, ops[0]), ops[1..], trace + [Event(ops[0], AnswerOf(w, ops[0]))]);
    }
  }

  lemma RunIsNumbered(ops: seq<Op>)
    ensures Numbered(Run(EMPTY_WORLD, ops), History(ops)) && |History(ops)| == |ops|
  {
    RunNumbers(EMPTY_WORLD, ops, []);
    TraceHolds(EMPTY_WORLD, ops, [], 0);
  }

  // ---------------------------------------------------------------- bootstrap submissions

  /** The submission repeats the peer, challenge and secret of an answered start, in time. */
  predicate EntitledBy(e: Event, op: Op)
    requires op.OpSubmit?
  {
    && e.op.OpStart? && e.op.request.Some? && e.answer.Challenged? && e.answer.challenged.Ok? && op.code.Some?
    && Starts(e, op.peer, e.op.request.value, op.code.value, e.answer.challenged.value)
    && e.answer.challenged.value.id == op.id && e.answer.challenged.value.challenge == op.challenge
    && op.now <= e.answer.challenged.value.expires
  }

  lemma SubmitOkMatches(m: Machine, op: Op)
    requires op.OpSubmit? && Submit(m, op.peer, op.id, op.challenge, op.code, op.now, op.certificate, op.faults).1.Ok?
    ensures op.id in m.state.attempts && op.certificate.Some?
    ensures var a, c := m.state.attempts[op.id], op.certificate.value;
      && a.peer == op.peer && a.challenge == op.challenge && op.code == Some(a.code) && op.now <= a.expires
      && Submit(m, op.peer, op.id, op.challenge, op.code, op.now, op.certificate, op.faults).1.value
         == Material(a.approval, c.identity, c.chain, c.notAfter)
  {
  }

  /** A certificate is answered only to the peer of an answered start, with its challenge and secret, in time. */
  lemma CertifiedOnlyWhenEntitled(ops: seq<Op>, submit: Op)
    requires submit.OpSubmit?
    ensures var answer := AnswerOf(Run(EMPTY_WORLD, ops), submit);
      answer.Certified? && answer.certified.Ok? ==>
        && (exists i | 0 <= i < |ops| && i < |History(ops)| :: EntitledBy(History(ops)[i], submit))
        && submit.certificate.Some?
        && var c := submit.certificate.value;
           answer.certified.value == Material(submit.id + 1, c.identity, c.chain, c.notAfter)
  {
    RunIsAccounted(ops);
    var w, trace := Run(EMPTY_WORLD, ops), History(ops);
    if w.up && Submit(w.m, submit.peer, submit.id, submit.challenge, submit.code, submit.now, submit.certificate, submit.faults).1.Ok? {
      SubmitOkMatches(w.m, submit);
      var a := w.m.state.attempts[submit.id];
      assert Made(trace, submit.id, a);
      var i :| 0 <= i < |trace| && MadeBy(trace[i], submit.id, a);
      assert EntitledBy(trace[i], submit);
    }
  }

  /** The start whose answer named this identifier is the only one. */
  lemma SameOpening(ops: seq<Op>, i: nat, j: nat)
    requires i < |History(ops)| && j < |History(ops)| && Challenges(History(ops)[i]) && Challenges(History(ops)[j])
    requires History(ops)[i].answer.challenged.value.id == History(ops)[j].answer.challenged.value.id
    ensures i == j
  {
    RunIsNumbered(ops);
  }

  /** Another peer, or another challenge, for a start that waits is refused and changes nothing. */
  lemma ForeignSubmissionIsRefused(ops: seq<Op>, submit: Op, i: nat)
    requires submit.OpSubmit? && submit.code.Some? && i < |History(ops)| && Challenges(History(ops)[i]) && History(ops)[i].op.OpStart?
    requires var s := History(ops)[i];
      s.answer.challenged.value.id == submit.id
      && (s.op.peer != submit.peer || s.answer.challenged.value.challenge != submit.challenge)
    ensures var w := Run(EMPTY_WORLD, ops);
      w.up && submit.id in w.m.state.attempts ==> Step(w, submit) == w && AnswerOf(w, submit) == Certified(Err(AuthorityMismatch))
  {
    RunIsAccounted(ops);
    var w, trace := Run(EMPTY_WORLD, ops), History(ops);
    if w.up && submit.id in w.m.state.attempts {
      var a := w.m.state.attempts[submit.id];
      assert Made(trace, submit.id, a);
      var j :| 0 <= j < |trace| && MadeBy(trace[j], submit.id, a);
      SameOpening(ops, i, j);
      MismatchIsRefused(w.m, submit);
    }
  }

  lemma MismatchIsRefused(m: Machine, op: Op)
    requires op.OpSubmit? && op.code.Some? && op.id in m.state.attempts
    requires m.state.attempts[op.id].peer != op.peer || m.state.attempts[op.id].challenge != op.challenge
    ensures Submit(m, op.peer, op.id, op.challenge, op.code, op.now, op.certificate, op.faults) == (m, Err(AuthorityMismatch))
  {
  }

  lemma RightCodeIssues(m: Machine, op: Op)
    requires op.OpSubmit? && op.id in m.state.attempts && op.certificate.Some? && op.now + RECOVERY_TTL <= U64_MAX
    requires var a := m.state.attempts[op.id];
      && a.peer == op.peer && a.challenge == op.challenge && op.code == Some(a.code) && op.now <= a.expires && op.now <= a.hardExpires
      && CloseSucceeds(a.workspace, op.faults.closes)
    ensures var (n, answer) := Submit(m, op.peer, op.id, op.challenge, op.code, op.now, op.certificate, op.faults);
      var a := m.state.attempts[op.id];
      && (answer.Ok? || answer == Err(PersistenceFailed))
      && a.approval in n.state.core && n.state.core[a.approval].coreIdentity == op.certificate.value.identity
  {
  }

  /** The other way round: while the attempt waits, an entitled submission whose workspace closes issues. */
  lemma EntitledIsCertified(ops: seq<Op>, submit: Op, i: nat)
    requires submit.OpSubmit? && i < |History(ops)| && EntitledBy(History(ops)[i], submit)
    requires submit.certificate.Some? && submit.now + RECOVERY_TTL <= U64_MAX
    requires var w := Run(EMPTY_WORLD, ops);
      w.up && submit.id in w.m.state.attempts && CloseSucceeds(w.m.state.attempts[submit.id].workspace, submit.faults.closes)
    ensures var w := Run(EMPTY_WORLD, ops);
      var answer, n := AnswerOf(w, submit), Step(w, submit);
      && answer.Certified? && (answer.certified.Ok? || answer.certified == Err(PersistenceFailed))
      && submit.id + 1 in n.m.state.core && n.m.state.core[submit.id + 1].coreIdentity == submit.certificate.value.identity
  {
    RunIsAccounted(ops);
    var w, trace := Run(EMPTY_WORLD, ops), History(ops);
    var a := w.m.state.attempts[submit.id];
    assert Made(trace, submit.id, a);
    var j :| 0 <= j < |trace| && MadeBy(trace[j], submit.id, a);
    SameOpening(ops, i, j);
    RightCodeIssues(w.m, submit);
  }

  /**
   * After an abort the attempt is gone, whatever is answered; its workspace is closed or kept for the next
   * sweep to close, and only a closed one is reported as done. An unknown attempt needs no abort.
   */
  lemma AbortsAreFinal(ops: seq<Op>, abort: Op)
    requires abort.OpAbort? && Run(EMPTY_WORLD, ops).up
    ensures var w := Run(EMPTY_WORLD, ops);
      var n, answer := Step(w, abort), AnswerOf(w, abort);
      && abort.id !in n.m.state.attempts
      && if abort.id !in w.m.state.attempts then n == w && answer == Acknowledged(Ok(()))
         else
           var a := w.m.state.attempts[abort.id];
           if CloseSucceeds(a.workspace, abort.faults.closes)
           then a.workspace !in n.m.owned && n.m.state.orphans == [] && (answer == Acknowledged(Ok(())) || answer == Acknowledged(Err(PersistenceFailed)))
           else n.m.state.orphans == [Orphan(a.session, a.workspace)] && answer != Acknowledged(Ok(()))
  {
    RunKeepsInv(EMPTY_WORLD, ops);
    var w := Run(EMPTY_WORLD, ops);
    if abort.id in w.m.state.attempts { AttemptTracks(w.m, abort.id); }
  }

  predicate Reports(e: Event) {
    || (e.op.OpSubmit? && e.answer.Certified? && e.answer.certified.Ok?)
    || (e.op.OpSubmitApp? && e.answer.Consumed? && e.answer.consumed.Ok?)
  }

  /** No start is certified twice and no App approval is consumed twice, over all restarts. */
  lemma AnsweredOnce(ops: seq<Op>, i: nat, j: nat)
    requires i < j < |ops| && i < |History(ops)| && j < |History(ops)| && Reports(History(ops)[i]) && Reports(History(ops)[j])
    requires History(ops)[i].op.OpSubmit? == History(ops)[j].op.OpSubmit?
    ensures History(ops)[i].op.id != History(ops)[j].op.id
  {
    HistoryIsTheRun(ops, j);
    RunIsNumbered(ops[..j]);
    var w := Run(EMPTY_WORLD, ops[..j]);
    assert History(ops[..j])[i] == History(ops)[i] && NumberedAt(w, History(ops[..j])[i]);
    if w.up { SubmissionsUseUp(w.m, ops[j]); }
  }

  // ---------------------------------------------------------------- approvals

  /**
   * An approval issued by an earlier submission of this Core for this binding, session and generation,
   * and confirmed by a later call.
   */
  ghost predicate RestsOn(trace: seq<Event>, core: Digest, q: Request) {
    exists id, a :: Justified(trace, id, a) && a.confirmed
      && a.coreIdentity == core && a.coreBinding == q.coreBinding && a.session == q.session && a.generation == q.generation
  }

  lemma StartedAppWasApproved(m: Machine, op: Op)
    requires op.OpStartApp? && StartApp(m, op.core, op.q, op.secret, op.now, op.creation, op.faults).1.Ok?
    ensures ValidSession(op.q.session) && op.q.session == m.session
    ensures exists id :: id in m.state.core && Approves(m.state.core[id], op.core, op.q)
  {
    var swept := Sweep(m, op.now, op.faults).0;
    SweepDrops(m, op.now, op.faults);
    var id :| id in swept.state.core && Approves(swept.state.core[id], op.core, op.q);
    assert id in m.state.core && m.state.core[id] == swept.state.core[id];
  }

  /**
   * In every run, restarts included, an App approval is opened only for a Core whose approval an earlier
   * submission obtained, for the same binding, session and generation, and an earlier call confirmed.
   */
  lemma AppsRestOnConfirmedApprovals(ops: seq<Op>, start: Op)
    requires start.OpStartApp?
    ensures var w, answer := Run(EMPTY_WORLD, ops), AnswerOf(Run(EMPTY_WORLD, ops), start);
      answer.Challenged? && answer.challenged.Ok? ==>
        RestsOn(History(ops), start.core, start.q) && ValidSession(start.q.session) && start.q.session == w.m.session
  {
    RunIsAccounted(ops);
    var w := Run(EMPTY_WORLD, ops);
    if w.up && StartApp(w.m, start.core, start.q, start.secret, start.now, start.creation, start.faults).1.Ok? {
      StartedAppWasApproved(w.m, start);
      var id :| id in w.m.state.core && Approves(w.m.state.core[id], start.core, start.q);
      assert Justified(History(ops), id, w.m.state.core[id]);
    }
  }

  /** Whether memory holds a confirmed approval for this Core, binding, session and generation. */
  predicate HoldsConfirmed(m: Machine, core: Digest, q: Request) {
    exists id :: id in m.state.core && m.state.core[id].confirmed
      && m.state.core[id].coreIdentity == core && m.state.core[id].coreBinding == q.coreBinding
      && m.state.core[id].session == q.session && m.state.core[id].generation == q.generation
  }

  /** A sweep takes no confirmed approval away. */
  lemma SweepKeepsConfirmed(m: Machine, now: nat, faults: Faults, core: Digest, q: Request)
    ensures HoldsConfirmed(Sweep(m, now, faults).0, core, q) <==> HoldsConfirmed(m, core, q)
  {
    var n := Sweep(m, now, faults).0;
    SweepDrops(m, now, faults);
    forall id | id in m.state.core && m.state.core[id].confirmed ensures id in n.state.core && n.state.core[id] == m.state.core[id] {
    }
  }

  lemma RefusedWithoutOne(s: State, m: Machine, core: Digest, q: Request)
    requires s == m.state
    ensures AppRefusal(s, core, q) == Some(AuthorityMismatch) <==> !HoldsConfirmed(m, core, q)
  {
    if HoldsConfirmed(m, core, q) {
      var id :| id in s.core && s.core[id].confirmed && s.core[id].coreIdentity == core && s.core[id].coreBinding == q.coreBinding
        && s.core[id].session == q.session && s.core[id].generation == q.generation;
      assert Approves(s.core[id], core, q);
    }
  }

  lemma OpeningIsNoMismatch(m: Machine, op: Op)
    requires op.OpStartApp? && (op.creation.CreationFails? ==> op.creation.error != AuthorityMismatch)
    ensures OpenApproval(m, op.core, op.q, op.secret, op.now, op.creation, op.faults).1 != Err(AuthorityMismatch)
  {
  }

  /** Once the request is sound and the sweep clean, a Core is refused exactly when no confirmed approval of its fits. */
  lemma AppsAreRefusedExactlyWithoutOne(m: Machine, op: Op)
    requires op.OpStartApp? && ValidSession(op.q.session) && op.q.session == m.session
    requires op.q.appCsr != 0 && op.q.coreBinding != 0 && op.q.generation != 0 && Sweep(m, op.now, op.faults).1.Ok?
    requires op.creation.CreationFails? ==> op.creation.error != AuthorityMismatch
    ensures StartApp(m, op.core, op.q, op.secret, op.now, op.creation, op.faults).1 == Err(AuthorityMismatch)
            <==> !HoldsConfirmed(m, op.core, op.q)
  {
    var swept := Sweep(m, op.now, op.faults).0;
    SweepKeepsConfirmed(m, op.now, op.faults, op.core, op.q);
    RefusedWithoutOne(swept.state, swept, op.core, op.q);
    OpeningIsNoMismatch(swept, op);
    SoundRequestBegins(m, op);
  }

  lemma SoundRequestBegins(m: Machine, op: Op)
    requires op.OpStartApp? && ValidSession(op.q.session) && op.q.session == m.session
    requires op.q.appCsr != 0 && op.q.coreBinding != 0 && op.q.generation != 0 && Sweep(m, op.now, op.faults).1.Ok?
    ensures StartApp(m, op.core, op.q, op.secret, op.now, op.creation, op.faults)
         == BeginApp(Sweep(m, op.now, op.faults).0, op.core, op.q, op.secret, op.now, op.creation, op.faults)
  {
  }

  /** The answered App start that this submission names, with its Core, challenge, App CSR and code, in time. */
  predicate EntitledAppBy(e: Event, op: Op)
    requires op.OpSubmitApp?
  {
    && e.op.OpStartApp? && Challenges(e) && op.code.Some? && op.csrMatches
    && StartsApp(e, op.core, e.op.q, op.code.value, e.answer.challenged.value)
    && e.answer.challenged.value.id == op.id && e.answer.challenged.value.challenge == op.challenge
    && e.op.q.appCsr == op.appCsr && op.now <= e.answer.challenged.value.expires
  }

  lemma SubmitAppOkMatches(m: Machine, op: Op)
    requires op.OpSubmitApp?
    requires SubmitApp(m, op.core, op.id, op.challenge, op.code, op.csrMatches, op.appCsr, op.now, op.faults).1.Ok?
    ensures op.id in m.state.app && op.csrMatches
    ensures var a := m.state.app[op.id];
      && a.coreIdentity == op.core && a.challenge == op.challenge && a.appCsr == op.appCsr && op.code == Some(a.code) && op.now <= a.expires
      && SubmitApp(m, op.core, op.id, op.challenge, op.code, op.csrMatches, op.appCsr, op.now, op.faults).1 == Ok(a)
  {
  }

  lemma OpenedAppRested(ops: seq<Op>, i: nat)
    requires i < |ops| && i < |History(ops)| && ops[i].OpStartApp? && Challenges(History(ops)[i])
    ensures History(ops)[i].op == ops[i] && RestsOn(History(ops[..i]), ops[i].core, ops[i].q)
  {
    HistoryIsTheRun(ops, i);
    AppsRestOnConfirmedApprovals(ops[..i], ops[i]);
  }

  /** The event is the answered start of this approval, and names what the submission names. */
  ghost predicate ConsumedBy(ops: seq<Op>, i: nat, submit: Op, a: AppApproval)
    requires submit.OpSubmitApp?
  {
    && i < |ops| && i < |History(ops)| && History(ops)[i].op == ops[i] && EntitledAppBy(History(ops)[i], submit)
    && a.coreIdentity == submit.core
    && Request(a.appCsr, a.coreBinding, a.session, a.generation) == ops[i].q
    && RestsOn(History(ops[..i]), submit.core, ops[i].q)
  }

  lemma OpenAppWasStarted(ops: seq<Op>, submit: Op, a: AppApproval)
    requires submit.OpSubmitApp? && Run(EMPTY_WORLD, ops).up
    requires submit.id in Run(EMPTY_WORLD, ops).m.state.app && a == Run(EMPTY_WORLD, ops).m.state.app[submit.id]
    requires a.coreIdentity == submit.core && a.challenge == submit.challenge && a.appCsr == submit.appCsr
    requires submit.code == Some(a.code) && submit.now <= a.expires && submit.csrMatches
    ensures exists i: nat :: ConsumedBy(ops, i, submit, a)
  {
    RunIsAccounted(ops);
    var trace := History(ops);
    assert MadeApp(trace, submit.id, a);
    var i :| 0 <= i < |trace| && MadeAppBy(trace[i], submit.id, a);
    HistoryIsTheRun(ops, i);
    OpenedAppRested(ops, i);
    assert ConsumedBy(ops, i, submit, a);
  }

  /**
   * An App approval is consumed only by the Core, challenge, App CSR and code of the App start that opened
   * it, in time, and that start rested on a confirmed approval of that Core.
   */
  lemma AppsAreConsumedByTheirCore(ops: seq<Op>, submit: Op)
    requires submit.OpSubmitApp?
    ensures var answer := AnswerOf(Run(EMPTY_WORLD, ops), submit);
      answer.Consumed? && answer.consumed.Ok? ==> exists i: nat :: ConsumedBy(ops, i, submit, answer.consumed.value)
  {
    var w := Run(EMPTY_WORLD, ops);
    if w.up && SubmitApp(w.m, submit.core, submit.id, submit.challenge, submit.code, submit.csrMatches, submit.appCsr,
                         submit.now, submit.faults).1.Ok? {
      SubmitAppOkMatches(w.m, submit);
      OpenAppWasStarted(ops, submit, w.m.state.app[submit.id]);
    }
  }

  lemma RightAppCodeConsumes(m: Machine, op: Op)
    requires op.OpSubmitApp? && op.id in m.state.app && op.csrMatches
    requires var a := m.state.app[op.id];
      && a.coreIdentity == op.core && a.challenge == op.challenge && a.appCsr == op.appCsr && op.code == Some(a.code)
      && op.now <= a.expires && CloseSucceeds(a.workspace, op.faults.closes)
    ensures var (n, answer) := SubmitApp(m, op.core, op.id, op.challenge, op.code, op.csrMatches, op.appCsr, op.now, op.faults);
      (answer == Ok(m.state.app[op.id]) || answer == Err(PersistenceFailed)) && op.id !in n.state.app
  {
  }

  /** The other way round: while it is open, an entitled submission whose workspace closes consumes it. */
  lemma EntitledConsumes(ops: seq<Op>, submit: Op, i: nat)
    requires submit.OpSubmitApp? && i < |History(ops)| && EntitledAppBy(History(ops)[i], submit)
    requires var w := Run(EMPTY_WORLD, ops);
      w.up && submit.id in w.m.state.app && CloseSucceeds(w.m.state.app[submit.id].workspace, submit.faults.closes)
    ensures var w := Run(EMPTY_WORLD, ops);
      var answer, n := AnswerOf(w, submit), Step(w, submit);
      && (answer == Consumed(Ok(w.m.state.app[submit.id])) || answer == Consumed(Err(PersistenceFailed)))
      && submit.id !in n.m.state.app
  {
    RunIsAccounted(ops);
    var w, trace := Run(EMPTY_WORLD, ops), History(ops);
    var a := w.m.state.app[submit.id];
    assert MadeApp(trace, submit.id, a);
    var j :| 0 <= j < |trace| && MadeAppBy(trace[j], submit.id, a);
    SameOpening(ops, i, j);
    RightAppCodeConsumes(w.m, submit);
  }

  lemma AppMismatchIsRefused(m: Machine, op: Op)
    requires op.OpSubmitApp? && op.code.Some? && op.csrMatches && op.id in m.state.app
    requires var a := m.state.app[op.id];
      a.coreIdentity != op.core || a.challenge != op.challenge || a.appCsr != op.appCsr
    ensures SubmitApp(m, op.core, op.id, op.challenge, op.code, op.csrMatches, op.appCsr, op.now, op.faults) == (m, Err(AuthorityMismatch))
  {
  }

  /** Another Core, challenge or App CSR for an open App approval is refused and changes nothing. */
  lemma ForeignAppSubmissionIsRefused(ops: seq<Op>, submit: Op, i: nat)
    requires submit.OpSubmitApp? && submit.code.Some? && submit.csrMatches
    requires i < |History(ops)| && Challenges(History(ops)[i]) && History(ops)[i].op.OpStartApp?
    requires var s := History(ops)[i];
      s.answer.challenged.value.id == submit.id
      && (s.op.core != submit.core || s.answer.challenged.value.challenge != submit.challenge || s.op.q.appCsr != submit.appCsr)
    ensures var w := Run(EMPTY_WORLD, ops);
      w.up && submit.id in w.m.state.app ==> Step(w, submit) == w && AnswerOf(w, submit) == Consumed(Err(AuthorityMismatch))
  {
    RunIsAccounted(ops);
    var w, trace := Run(EMPTY_WORLD, ops), History(ops);
    if w.up && submit.id in w.m.state.app {
      var a := w.m.state.app[submit.id];
      assert MadeApp(trace, submit.id, a);
      var j :| 0 <= j < |trace| && MadeAppBy(trace[j], submit.id, a);
      SameOpening(ops, i, j);
      AppMismatchIsRefused(w.m, submit);
    }
  }

  // ---------------------------------------------------------------- recovery, authorization and confirmation

  /** Material is recovered only under the binding and session of the start it was issued for, unless that lapsed. */
  lemma RecoveredOnlyByItsCore(ops: seq<Op>, op: Op)
    requires op.OpReconcile?
    ensures var answer := AnswerOf(Run(EMPTY_WORLD, ops), op);
      answer.Certified? && answer.certified.Ok? ==>
        exists a | Justified(History(ops), op.approval, a) ::
          a.coreBinding == op.coreBinding && a.session == op.session && a.issued == answer.certified.value
          && (a.confirmed || op.now <= a.recoveryExpires)
  {
    RunIsAccounted(ops);
    var w := Run(EMPTY_WORLD, ops);
    if w.up && Reconcile(w.m, op.approval, op.coreBinding, op.session, op.now, op.faults).1.Ok? {
      var swept := Sweep(w.m, op.now, op.faults).0;
      SweptApproval(w.m, op.approval, op.now, op.faults);
      assert Justified(History(ops), op.approval, w.m.state.core[op.approval]);
    }
  }

  lemma SweptCore(m: Machine, now: nat, faults: Faults)
    ensures Sweep(m, now, faults).0.state.core == LiveCore(m.state.core, now)
  {
    SweepShape(m, now, faults);
  }

  lemma SweptApproval(m: Machine, id: Id, now: nat, faults: Faults)
    requires Inv(m)
    ensures var core := Sweep(m, now, faults).0.state.core;
      if id in m.state.core && (m.state.core[id].confirmed || now <= m.state.core[id].recoveryExpires)
      then id in core && core[id] == m.state.core[id] else id !in core
  {
    SweptCore(m, now, faults);
    if id in m.state.core { assert CoreSound(id, m.state.core[id]); }
  }

  /** The first App is authorized only for the Core and App CSR the approval was issued for, before it is confirmed. */
  lemma AuthorizedOnlyForItsCore(ops: seq<Op>, op: Op)
    requires op.OpAuthorize?
    ensures var answer := AnswerOf(Run(EMPTY_WORLD, ops), op);
      answer.Authorized? && answer.authorized.Ok? ==>
        exists a | Justified(History(ops), op.approval, a) ::
          a.coreIdentity == op.core && a.appCsr == op.appCsr && a.generation == answer.authorized.value
          && !a.confirmed && op.now <= a.recoveryExpires
  {
    RunIsAccounted(ops);
    var w := Run(EMPTY_WORLD, ops);
    if w.up && AuthorizeFirstApp(w.m, op.core, op.approval, op.appCsr, op.now, op.faults).1.Ok? {
      assert Justified(History(ops), op.approval, w.m.state.core[op.approval]);
    }
  }

  /** A confirmation is reported only to the Core, App CSR and generation of the approval, which is then confirmed. */
  lemma ConfirmedOnlyByItsCore(ops: seq<Op>, op: Op)
    requires op.OpConfirm?
    ensures var w, answer := Run(EMPTY_WORLD, ops), AnswerOf(Run(EMPTY_WORLD, ops), op);
      answer.Acknowledged? && answer.acknowledged.Ok? ==>
        exists a | Justified(History(ops), op.approval, a) ::
          a.coreIdentity == op.core && a.appCsr == op.appCsr && a.generation == op.generation
          && (a.confirmed || op.now <= a.recoveryExpires)
          && op.approval in Step(w, op).m.state.core && Step(w, op).m.state.core[op.approval] == a.(confirmed := true, recoveryExpires := 0)
  {
    RunIsAccounted(ops);
    var w := Run(EMPTY_WORLD, ops);
    if w.up && ConfirmFirstApp(w.m, op.core, op.approval, op.appCsr, op.generation, op.now, op.faults).1.Ok? {
      assert CoreSound(op.approval, w.m.state.core[op.approval]);
      assert Justified(History(ops), op.approval, w.m.state.core[op.approval]);
      ConfirmedInMemory(w.m, op);
    }
  }

  lemma ConfirmedInMemory(m: Machine, op: Op)
    requires op.OpConfirm? && Inv(m) && ConfirmFirstApp(m, op.core, op.approval, op.appCsr, op.generation, op.now, op.faults).1.Ok?
    ensures op.approval in m.state.core
    ensures var n := StepMachine(m, op);
      op.approval in n.state.core && n.state.core[op.approval] == m.state.core[op.approval].(confirmed := true, recoveryExpires := 0)
  {
    assert CoreSound(op.approval, m.state.core[op.approval]);
  }

  /** Whom an approval in memory is not for. */
  predicate Foreign(a: CoreApproval, op: Op) {
    match op
    case OpReconcile(_, coreBinding, session, _, _) => a.coreBinding != coreBinding || a.session != session
    case OpAuthorize(core, _, appCsr, _, _) => a.confirmed || a.coreIdentity != core || a.appCsr != appCsr
    case OpConfirm(core, _, appCsr, generation, _, _) => a.coreIdentity != core || a.appCsr != appCsr || a.generation != generation
    case _ => false
  }

  /** A call by anyone else for an approval that is neither lapsed nor swept is refused, and leaves every approval it found. */
  lemma ForeignApprovalIsRefused(m: Machine, op: Op)
    requires Inv(m) && (op.OpReconcile? || op.OpAuthorize? || op.OpConfirm?) && op.approval in m.state.core
    requires Foreign(m.state.core[op.approval], op)
    requires m.state.core[op.approval].confirmed || op.now <= m.state.core[op.approval].recoveryExpires
    requires op.OpReconcile? ==> Sweep(m, op.now, op.faults).1.Ok?
    ensures var answer := AnswerOf(World(true, m), op);
      && (op.OpReconcile? ==> answer == Certified(Err(AuthorityMismatch)))
      && (op.OpAuthorize? ==> answer == Authorized(Err(AuthorityMismatch)) && StepMachine(m, op) == m)
      && (op.OpConfirm? ==> answer == Acknowledged(Err(AuthorityMismatch)) && StepMachine(m, op) == m)
      && op.approval in StepMachine(m, op).state.core && StepMachine(m, op).state.core[op.approval] == m.state.core[op.approval]
  {
    if op.OpReconcile? {
      SweptApproval(m, op.approval, op.now, op.faults);
      ReconcileOnlySweeps(m, op.approval, op.coreBinding, op.session, op.now, op.faults);
    } else {
      assert CoreSound(op.approval, m.state.core[op.approval]);
    }
  }
}
