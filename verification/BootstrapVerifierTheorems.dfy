/** What the bootstrap verifier promises over whole runs. */
module BootstrapVerifierTheorems {
  import opened Common
  import opened Sessions
  import opened StartLimiter
  import opened Windows
  import opened BootstrapVerifier
  import opened BootstrapVerifierRuns

  // ---------------------------------------------------------------- how one step moves an attempt

  predicate TimedOp(op: Op) {
    !op.OpRetryCleanup? && !op.OpRetryOrphan?
  }

  function OpNow(op: Op): nat {
    if TimedOp(op) then op.now else 0
  }

  /** An operation other than a submission leaves an attempt alone, ends it, or leaves it to cleanup. */
  predicate Quiet(a: Attempt, b: Attempt) {
    || b == a
    || (Active(a) && (b.phase == Rejected || b.phase == Elapsed) && b == a.(phase := b.phase, code := None))
    || (Pendable(a) && b == a.(phase := Cleaning))
  }

  /** No recovery window is cut short: an issued attempt inside it is kept as it is. */
  predicate KeepsIssued(v: Verifier, n: Verifier, now: nat) {
    forall id {:trigger id in v.attempts} | id in v.attempts && v.attempts[id].phase == Issued && !RecoveryOver(v.attempts[id], now) ::
      id in n.attempts && n.attempts[id] == v.attempts[id]
  }

  predicate MovesQuietly(v: Verifier, n: Verifier) {
    && v.nextCounter <= n.nextCounter
    && forall id {:trigger id in n.attempts} | id in n.attempts ::
         if id in v.attempts then Quiet(v.attempts[id], n.attempts[id])
         else id >= v.nextCounter && n.attempts[id].phase == AwaitingCode && n.attempts[id].failures == 0
  }

  lemma CloseThenEndMovesQuietly(v: Verifier, id: Id, phase: Phase, fails: set<Id>, now: nat)
    requires id in v.attempts && Pendable(v.attempts[id]) && (phase == Rejected || phase == Elapsed)
    ensures var n := CloseThenEnd(v, id, phase, fails).0;
      MovesQuietly(v, n) && KeepsIssued(v, n, now) && n.attempts.Keys == v.attempts.Keys
  {
  }

  lemma ReapMovesQuietly(v: Verifier, now: nat, fails: set<Id>)
    ensures MovesQuietly(v, Reap(v, now, fails)) && KeepsIssued(v, Reap(v, now, fails), now)
    ensures Reap(v, now, fails).attempts.Keys == v.attempts.Keys
  {
  }

  lemma PruneMovesQuietly(v: Verifier, now: nat)
    ensures MovesQuietly(v, PruneRetained(v, now)) && KeepsIssued(v, PruneRetained(v, now), now)
    ensures PruneRetained(v, now).attempts.Keys <= v.attempts.Keys
  {
  }

  lemma QuietlyTwice(v: Verifier, m: Verifier, n: Verifier, now: nat)
    requires MovesQuietly(v, m) && MovesQuietly(m, n) && KeepsIssued(v, m, now) && KeepsIssued(m, n, now)
    requires m.attempts.Keys <= v.attempts.Keys && Fencing(v)
    ensures MovesQuietly(v, n) && KeepsIssued(v, n, now)
  {
    forall id | id in n.attempts && id in v.attempts ensures Quiet(v.attempts[id], n.attempts[id]) {
      assert AttemptSound(v, id);
      assert id in m.attempts;
    }
  }

  /** What a start adds to the swept verifier: at most one new attempt under a new identifier. */
  predicate AddsAtMostOne(swept: Verifier, n: Verifier) {
    && swept.nextCounter <= n.nextCounter && n.nextSerial == swept.nextSerial
    && (n.attempts == swept.attempts
        || (&& swept.nextCounter in n.attempts
            && n.attempts == swept.attempts[swept.nextCounter := n.attempts[swept.nextCounter]]
            && n.attempts[swept.nextCounter].phase == AwaitingCode
            && n.attempts[swept.nextCounter].failures == 0))
  }

  lemma OpenAddsAtMostOne(v: Verifier, peer: Peer, binding: Binding, code: Code, now: nat, faults: Faults)
    requires v.nextCounter <= U64_MAX
    ensures AddsAtMostOne(v, Open(v, peer, binding, code, now, faults).0)
  {
  }

  lemma BeginAddsAtMostOne(swept: Verifier, peer: Peer, binding: Binding, code: Code, now: nat, faults: Faults)
    requires swept.nextCounter <= U64_MAX
    ensures AddsAtMostOne(swept, Begin(swept, peer, binding, code, now, faults).0)
  {
    var starts := Prune(swept.starts, now);
    OpenAddsAtMostOne(swept.(starts := Record(starts, peer, now)), peer, binding, code, now, faults);
  }

  lemma AddingMovesQuietly(swept: Verifier, n: Verifier, now: nat)
    requires Fencing(swept) && AddsAtMostOne(swept, n)
    ensures MovesQuietly(swept, n) && KeepsIssued(swept, n, now)
  {
    forall id | id in swept.attempts ensures id != swept.nextCounter {
      assert AttemptSound(swept, id);
    }
  }

  lemma SweepMovesQuietly(v: Verifier, now: nat, fails: set<Id>)
    requires Fencing(v)
    ensures MovesQuietly(v, Swept(v, now, fails)) && KeepsIssued(v, Swept(v, now, fails), now)
    ensures Swept(v, now, fails).attempts.Keys <= v.attempts.Keys && Swept(v, now, fails).nextSerial == v.nextSerial
  {
    ReapMovesQuietly(v, now, fails);
    PruneMovesQuietly(Reap(v, now, fails), now);
    QuietlyTwice(v, Reap(v, now, fails), Swept(v, now, fails), now);
  }

  lemma StartMovesQuietly(v: Verifier, peer: Peer, binding: Binding, code: Code, now: nat, faults: Faults)
    requires Fencing(v)
    ensures var n := Start(v, peer, binding, code, now, faults).0;
      MovesQuietly(v, n) && KeepsIssued(v, n, now) && n.nextSerial == v.nextSerial
  {
    if now != 0 {
      var swept, n := Swept(v, now, faults.closes), Start(v, peer, binding, code, now, faults).0;
      SweepMovesQuietly(v, now, faults.closes);
      SweptKeepsFencing(v, now, faults.closes);
      BeginAddsAtMostOne(swept, peer, binding, code, now, faults);
      AddingMovesQuietly(swept, n, now);
      QuietlyTwice(v, swept, n, now);
    }
  }

  lemma ReconcileMovesQuietly(v: Verifier, approval: Id, binding: Binding, now: nat, fails: set<Id>)
    ensures MovesQuietly(v, Reconcile(v, approval, binding, now, fails).0)
    ensures KeepsIssued(v, Reconcile(v, approval, binding, now, fails).0, now)
    ensures Reconcile(v, approval, binding, now, fails).0.nextSerial == v.nextSerial
  {
    var found := FindApproval(v, approval);
    if found.Some? && Pendable(v.attempts[found.value]) {
      CloseThenEndMovesQuietly(v, found.value, Elapsed, fails, now);
    }
  }

  lemma RetriesMoveQuietly(w: World, op: Op)
    requires Fencing(w.v) && (op.OpRetryCleanup? || op.OpRetryOrphan?)
    ensures var n := Step(w, op).0;
      && MovesQuietly(w.v, n.v) && KeepsIssued(w.v, n.v, 0)
      && n.issuances == w.issuances && n.wrong == w.wrong && n.v.nextSerial == w.v.nextSerial
  {
  }

  lemma ReconcilesMoveQuietly(w: World, op: Op)
    requires op.OpReconcile? || op.OpReconcileWire?
    ensures var n := Step(w, op).0;
      && MovesQuietly(w.v, n.v) && KeepsIssued(w.v, n.v, OpNow(op))
      && n.issuances == w.issuances && n.wrong == w.wrong && n.v.nextSerial == w.v.nextSerial
  {
    if op.OpReconcile? {
      ReconcileMovesQuietly(w.v, op.approval, op.binding, op.now, op.fails);
    } else {
      var found := FindApproval(w.v, op.approval);
      if found.Some? { ReconcileMovesQuietly(w.v, op.approval, w.v.attempts[found.value].binding, op.now, op.fails); }
    }
  }

  lemma StepMovesQuietly(w: World, op: Op)
    requires Fencing(w.v) && !op.OpSubmit?
    ensures var n := Step(w, op).0;
      && MovesQuietly(w.v, n.v) && KeepsIssued(w.v, n.v, OpNow(op))
      && n.issuances == w.issuances && n.wrong == w.wrong && n.v.nextSerial == w.v.nextSerial
  {
    if op.OpStart? {
      StartMovesQuietly(w.v, op.peer, op.binding, op.secret, op.now, op.faults);
    } else if op.OpRetryCleanup? || op.OpRetryOrphan? {
      RetriesMoveQuietly(w, op);
    } else if op.OpReap? {
      ReapMovesQuietly(w.v, op.now, op.fails);
    } else {
      ReconcilesMoveQuietly(w, op);
    }
  }

  // ---------------------------------------------------------------- one submission

  /** The three ways a submission can move its attempt: a counted wrong code, an end, or a certificate. */
  predicate MovesBySubmission(a: Attempt, b: Attempt, wrong: bool, answer: Result<Metadata, VerifierError>, now: nat) {
    var counted := if wrong then a.(failures := a.failures + 1) else a;
    if answer.Ok? then
      !wrong && b == a.(code := None, issued := Some(answer.value), issuedAt := Some(now), phase := Issued)
    else if wrong && counted.failures < MAX_CODE_FAILURES then b == counted
    else Quiet(counted, b) && b.phase != AwaitingCode
  }

  /** Only the submitted attempt moves. */
  predicate OnlyMoves(v: Verifier, n: Verifier, id: Id, wrong: bool, answer: Result<Metadata, VerifierError>, now: nat) {
    && id in v.attempts && n.attempts.Keys == v.attempts.Keys && n.nextCounter == v.nextCounter
    && (forall other | other in v.attempts && other != id :: n.attempts[other] == v.attempts[other])
    && MovesBySubmission(v.attempts[id], n.attempts[id], wrong, answer, now)
    && v.nextSerial <= n.nextSerial
    && (answer.Ok? ==> answer.value.serial == v.nextSerial < n.nextSerial)
  }

  lemma EndingMoves(v: Verifier, id: Id, phase: Phase, fails: set<Id>, answer: Result<Metadata, VerifierError>, now: nat)
    requires id in v.attempts && v.attempts[id].phase == AwaitingCode && (phase == Rejected || phase == Elapsed) && answer.Err?
    ensures OnlyMoves(v, CloseThenEnd(v, id, phase, fails).0, id, false, answer, now)
  {
  }

  lemma WrongCodeMoves(v: Verifier, id: Id, fails: set<Id>, now: nat)
    requires id in v.attempts && v.attempts[id].phase == AwaitingCode
    ensures OnlyMoves(v, FailCode(v, id, fails).0, id, true, FailCode(v, id, fails).1, now)
  {
    var counted := v.(attempts := v.attempts[id := v.attempts[id].(failures := v.attempts[id].failures + 1)]);
    EndingMoves(counted, id, Rejected, fails, Err(CodeRateLimited), now);
  }

  lemma IssuanceMoves(v: Verifier, id: Id, now: nat, fails: set<Id>, issueFails: bool)
    requires id in v.attempts && v.attempts[id].phase == AwaitingCode
    ensures var (n, answer) := IssueFor(Close(v, v.attempts[id].workspace, fails), id, now, issueFails);
      OnlyMoves(v, n, id, false, answer, now)
  {
    IssueForShape(Close(v, v.attempts[id].workspace, fails), id, now, issueFails);
  }

  lemma SubmissionMoves(v: Verifier, op: Op)
    requires Fencing(v) && op.OpSubmit?
    ensures var (n, answer) := Submit(v, op.id, op.challenge, op.code, op.now, op.fails, op.issueFails);
      if SubmitRefusal(v, op.id, op.challenge, op.code).Some? then n == v && answer.Err? && !ComparesWrongCode(v, op)
      else OnlyMoves(v, n, op.id, ComparesWrongCode(v, op), answer, op.now) && (answer.Ok? ==> op.now != 0)
  {
    if SubmitRefusal(v, op.id, op.challenge, op.code).None? {
      var attempt := v.attempts[op.id];
      assert AttemptSound(v, op.id);
      if TooLate(attempt, op.now) {
        EndingMoves(v, op.id, Elapsed, op.fails, Err(Expired), op.now);
        EndingMoves(v, op.id, Elapsed, op.fails, Err(CleanupPending), op.now);
      } else if attempt.code != op.code {
        WrongCodeMoves(v, op.id, op.fails, op.now);
      } else if CloseSucceeds(v, attempt.workspace, op.fails) {
        IssuanceMoves(v, op.id, op.now, op.fails, op.issueFails);
      }
    }
  }

  // ---------------------------------------------------------------- certificates and wrong codes

  predicate HasIssued(issuances: seq<Issuance>, id: Id) {
    exists k :: 0 <= k < |issuances| && issuances[k].id == id
  }

  predicate AttemptLedger(w: World, id: Id)
    requires id in w.v.attempts
  {
    var a := w.v.attempts[id];
    && (Pendable(a) ==> !HasIssued(w.issuances, id))
    && (a.phase == AwaitingCode ==> w.wrong[id] == a.failures < MAX_CODE_FAILURES)
  }

  predicate IssuancesDistinct(issuances: seq<Issuance>) {
    forall j, k | 0 <= j < k < |issuances| ::
      issuances[j].id != issuances[k].id && issuances[j].metadata.serial < issuances[k].metadata.serial
  }

  predicate IssuanceBounded(v: Verifier, issuance: Issuance) {
    issuance.id < v.nextCounter && issuance.metadata.serial < v.nextSerial && issuance.metadata.approval == issuance.id + 1
  }

  ghost predicate Ledger(w: World) {
    && IssuancesDistinct(w.issuances)
    && (forall k | 0 <= k < |w.issuances| :: IssuanceBounded(w.v, w.issuances[k]))
    && (forall id {:trigger AttemptLedger(w, id)} | id in w.v.attempts :: AttemptLedger(w, id))
    && (forall id: Id :: w.wrong[id] <= MAX_CODE_FAILURES && (id >= w.v.nextCounter ==> w.wrong[id] == 0))
  }

  lemma QuietStepKeepsLedger(w: World, op: Op)
    requires Fencing(w.v) && Ledger(w) && !op.OpSubmit?
    ensures Ledger(Step(w, op).0)
  {
    StepMovesQuietly(w, op);
    var n := Step(w, op).0;
    forall id | id in n.v.attempts ensures AttemptLedger(n, id) {
      assert id in w.v.attempts ==> AttemptLedger(w, id);
    }
  }

  lemma SubmissionKeepsAttemptLedger(w: World, op: Op, id: Id)
    requires Fencing(w.v) && op.OpSubmit? && SubmitRefusal(w.v, op.id, op.challenge, op.code).None?
    requires id in w.v.attempts && AttemptLedger(w, id) && AttemptLedger(w, op.id)
    requires var (n, answer) := Submit(w.v, op.id, op.challenge, op.code, op.now, op.fails, op.issueFails);
      OnlyMoves(w.v, n, op.id, ComparesWrongCode(w.v, op), answer, op.now)
    ensures AttemptLedger(Step(w, op).0, id)
  {
    IssuedAppend(w.issuances, Step(w, op).0.issuances, id);
  }

  /** A submission adds at most one issuance, under the serial and the attempt it was made for. */
  lemma SubmissionKeepsIssuances(w: World, op: Op)
    requires Fencing(w.v) && Ledger(w) && op.OpSubmit? && SubmitRefusal(w.v, op.id, op.challenge, op.code).None?
    requires var (n, answer) := Submit(w.v, op.id, op.challenge, op.code, op.now, op.fails, op.issueFails);
      OnlyMoves(w.v, n, op.id, ComparesWrongCode(w.v, op), answer, op.now)
    ensures var n := Step(w, op).0;
      IssuancesDistinct(n.issuances) && forall k | 0 <= k < |n.issuances| :: IssuanceBounded(n.v, n.issuances[k])
  {
    var n := Step(w, op).0;
    assert AttemptLedger(w, op.id) && AttemptSound(w.v, op.id);
    forall k | 0 <= k < |w.issuances| ensures IssuanceBounded(n.v, w.issuances[k]) {
      assert IssuanceBounded(w.v, w.issuances[k]);
    }
  }

  lemma SubmissionKeepsLedger(w: World, op: Op)
    requires Fencing(w.v) && Ledger(w) && op.OpSubmit?
    ensures Ledger(Step(w, op).0)
  {
    SubmissionMoves(w.v, op);
    var n := Step(w, op).0;
    if SubmitRefusal(w.v, op.id, op.challenge, op.code).None? {
      SubmissionKeepsIssuances(w, op);
      assert AttemptLedger(w, op.id) && AttemptSound(w.v, op.id);
      forall id | id in n.v.attempts ensures AttemptLedger(n, id) {
        assert AttemptLedger(w, id);
        SubmissionKeepsAttemptLedger(w, op, id);
      }
    } else {
      assert n == w;
    }
  }

  lemma IssuedAppend(issuances: seq<Issuance>, longer: seq<Issuance>, id: Id)
    requires longer == issuances || (|longer| == |issuances| + 1 && longer[..|issuances|] == issuances)
    ensures HasIssued(longer, id) <==> HasIssued(issuances, id) || (longer != issuances && longer[|issuances|].id == id)
  {
    if HasIssued(issuances, id) {
      var k :| 0 <= k < |issuances| && issuances[k].id == id;
      assert longer[k] == issuances[k];
    }
  }

  lemma {:induction false} RunKeepsLedger(w: World, ops: seq<Op>)
    requires Fencing(w.v) && Ledger(w)
    ensures Fencing(Run(w, ops).v) && Ledger(Run(w, ops))
    decreases |ops|
  {
    if ops != [] {
      StepKeepsFencing(w, ops[0]);
      if ops[0].OpSubmit? { SubmissionKeepsLedger(w, ops[0]); } else { QuietStepKeepsLedger(w, ops[0]); }
      RunKeepsLedger(Step(w, ops[0]).0, ops[1..]);
    }
  }

  /** No attempt is certified twice, however long the run, and every certificate has its own serial. */
  lemma AtMostOneCertificatePerAttempt(ops: seq<Op>, j: nat, k: nat)
    requires j < k < |Run(EMPTY_WORLD, ops).issuances|
    ensures var issuances := Run(EMPTY_WORLD, ops).issuances;
      issuances[j].id != issuances[k].id && issuances[j].metadata.serial < issuances[k].metadata.serial
  {
    RunKeepsLedger(EMPTY_WORLD, ops);
  }

  /** No attempt ever has more than five wrong codes compared. */
  lemma AtMostFiveWrongCodes(ops: seq<Op>, id: Id)
    ensures Run(EMPTY_WORLD, ops).wrong[id] <= MAX_CODE_FAILURES
  {
    RunKeepsLedger(EMPTY_WORLD, ops);
  }

  // ---------------------------------------------------------------- recovery of an issued certificate

  predicate Monotone(ops: seq<Op>, clock: nat)
    decreases |ops|
  {
    ops == [] || ((TimedOp(ops[0]) ==> clock <= ops[0].now) && Monotone(ops[1..], Clock(clock, ops[0])))
  }

  function Clock(clock: nat, op: Op): nat {
    Max(clock, OpNow(op))
  }

  function ClockAfter(clock: nat, ops: seq<Op>): nat
    decreases |ops|
  {
    if ops == [] then clock else ClockAfter(Clock(clock, ops[0]), ops[1..])
  }

  /** The attempt still holds exactly what was issued, and its session is still fenced by it. */
  predicate Held(v: Verifier, issuance: Issuance) {
    issuance.id in v.attempts
    && var a := v.attempts[issuance.id];
       a.phase == Issued && a.binding == issuance.binding
       && a.issued == Some(issuance.metadata) && a.issuedAt == Some(issuance.at)
  }

  ghost predicate Recoverable(w: World, clock: nat) {
    forall k | 0 <= k < |w.issuances| ::
      w.issuances[k].at <= clock && (clock <= w.issuances[k].at + RECOVERY_TTL ==> Held(w.v, w.issuances[k]))
  }

  lemma QuietStepKeepsRecoverable(w: World, op: Op, clock: nat)
    requires Fencing(w.v) && !op.OpSubmit? && Recoverable(w, clock) && (TimedOp(op) ==> clock <= op.now)
    ensures Recoverable(Step(w, op).0, Clock(clock, op))
  {
    StepMovesQuietly(w, op);
  }

  lemma SubmissionKeepsRecoverable(w: World, op: Op, clock: nat)
    requires Fencing(w.v) && op.OpSubmit? && Recoverable(w, clock) && clock <= op.now
    ensures Recoverable(Step(w, op).0, Clock(clock, op))
  {
    SubmissionMoves(w.v, op);
    var n := Step(w, op).0;
    forall k | 0 <= k < |n.issuances|
      ensures n.issuances[k].at <= op.now && (op.now <= n.issuances[k].at + RECOVERY_TTL ==> Held(n.v, n.issuances[k]))
    {
      if k < |w.issuances| {
        assert n.issuances[k] == w.issuances[k];
      }
    }
  }

  lemma {:induction false} RunKeepsRecoverable(w: World, ops: seq<Op>, clock: nat)
    requires Fencing(w.v) && Recoverable(w, clock) && Monotone(ops, clock)
    ensures Fencing(Run(w, ops).v) && Recoverable(Run(w, ops), ClockAfter(clock, ops))
    decreases |ops|
  {
    if ops != [] {
      StepKeepsFencing(w, ops[0]);
      if ops[0].OpSubmit? { SubmissionKeepsRecoverable(w, ops[0], clock); } else { QuietStepKeepsRecoverable(w, ops[0], clock); }
      RunKeepsRecoverable(Step(w, ops[0]).0, ops[1..], Clock(clock, ops[0]));
    }
  }

  lemma ApprovalsAreUnique(v: Verifier, id: Id)
    requires Fencing(v) && id in v.attempts
    ensures FindApproval(v, id + 1) == Some(id)
  {
    assert AttemptSound(v, id);
    assert HasApproval(v, id, id + 1);
    var found := FindApproval(v, id + 1).value;
    assert AttemptSound(v, found);
  }

  /** A reconcile by the exact binding changes nothing and returns what was issued; the session is still fenced. */
  ghost predicate IsRecovered(w: World, issuance: Issuance, now: nat, fails: set<Id>) {
    var op := OpReconcile(issuance.id + 1, issuance.binding, now, fails);
    && Step(w, op) == (w, Reconciled(Ok(Recovered(issuance.metadata))))
    && issuance.binding.session in w.v.fences && w.v.fences[issuance.binding.session] == issuance.id
  }

  /**
   * Under a clock that never runs backwards, a certificate returned by a submission can be recovered,
   * unchanged and without another issuance, by its exact binding for the next 24 hours, and its session
   * stays fenced throughout.
   */
  lemma IssuedIsRecoverableForADay(ops: seq<Op>, k: nat, now: nat, fails: set<Id>)
    requires Monotone(ops, 0) && k < |Run(EMPTY_WORLD, ops).issuances|
    requires ClockAfter(0, ops) <= now <= Run(EMPTY_WORLD, ops).issuances[k].at + RECOVERY_TTL && now != 0
    ensures IsRecovered(Run(EMPTY_WORLD, ops), Run(EMPTY_WORLD, ops).issuances[k], now, fails)
  {
    RunKeepsRecoverable(EMPTY_WORLD, ops, 0);
    RecoverableIsRecovered(Run(EMPTY_WORLD, ops), k, ClockAfter(0, ops), now, fails);
  }

  lemma RecoverableIsRecovered(w: World, k: nat, clock: nat, now: nat, fails: set<Id>)
    requires Fencing(w.v) && Recoverable(w, clock) && k < |w.issuances|
    requires clock <= now <= w.issuances[k].at + RECOVERY_TTL && now != 0
    ensures IsRecovered(w, w.issuances[k], now, fails)
  {
    StillHeld(w, k, clock, now);
    HeldIsRecovered(w, w.issuances[k], now, fails);
  }

  lemma StillHeld(w: World, k: nat, clock: nat, now: nat)
    requires Recoverable(w, clock) && k < |w.issuances| && clock <= now <= w.issuances[k].at + RECOVERY_TTL
    ensures Held(w.v, w.issuances[k]) && w.issuances[k].at <= now
  {
  }

  lemma HeldIsRecovered(w: World, issuance: Issuance, now: nat, fails: set<Id>)
    requires Fencing(w.v) && Held(w.v, issuance) && issuance.at <= now <= issuance.at + RECOVERY_TTL && now != 0
    ensures Step(w, OpReconcile(issuance.id + 1, issuance.binding, now, fails)) == (w, Reconciled(Ok(Recovered(issuance.metadata))))
    ensures ValidSession(issuance.binding.session) ==>
      Step(w, OpReconcileWire(issuance.id + 1, issuance.binding.coreBinding, issuance.binding.session, now, fails))
      == (w, Reconciled(Ok(Recovered(issuance.metadata))))
    ensures issuance.binding.session in w.v.fences && w.v.fences[issuance.binding.session] == issuance.id
  {
    ApprovalsAreUnique(w.v, issuance.id);
    assert AttemptSound(w.v, issuance.id);
  }

  /** The overflow of the recovery deadline, and an issued attempt without metadata, are unreachable. */
  lemma ReconcileNeverOverflows(ops: seq<Op>, approval: Id, binding: Binding, now: nat, fails: set<Id>)
    ensures Reconcile(Run(EMPTY_WORLD, ops).v, approval, binding, now, fails).1 != Err(Overflow)
    ensures Reconcile(Run(EMPTY_WORLD, ops).v, approval, binding, now, fails).1 != Err(InvalidState)
  {
    RunKeepsFencing(EMPTY_WORLD, ops);
    ReconcileKeepsFencing(Run(EMPTY_WORLD, ops).v, approval, binding, now, fails);
  }

  // ---------------------------------------------------------------- the start limiter

  ghost predicate Limited(w: World, clock: nat) {
    Tracks(w.v.starts, w.passes, clock)
  }

  lemma BeginKeepsLimiter(swept: Verifier, passes: seq<Pass>, op: Op, clock: nat)
    requires op.OpStart? && clock <= op.now
    requires Tracks(swept.starts, passes, clock)
    ensures var n := Begin(swept, op.peer, op.binding, op.secret, op.now, op.faults).0;
      var after := if PassesLimiter(swept, op.peer, op.binding.session, op.now) then passes + [Pass(op.peer, op.now)] else passes;
      Tracks(n.starts, after, op.now)
  {
    TicksTrack(swept.starts, passes, clock, op.now);
    PruneTracks(swept.starts, passes, clock, op.now);
    BeginStarts(swept, op.peer, op.binding, op.secret, op.now, op.faults);
    if PassesLimiter(swept, op.peer, op.binding.session, op.now) {
      PassTracks(Prune(swept.starts, op.now), passes, op.peer, op.now);
    }
  }

  lemma StepKeepsLimiter(w: World, op: Op, clock: nat)
    requires Limited(w, clock) && (TimedOp(op) ==> clock <= op.now)
    ensures Limited(Step(w, op).0, Clock(clock, op))
  {
    if op.OpStart? && op.now != 0 {
      BeginKeepsLimiter(Swept(w.v, op.now, op.faults.closes), w.passes, op, clock);
    } else {
      TicksTrack(w.v.starts, w.passes, clock, Clock(clock, op));
      if op.OpSubmit? { SubmitStarts(w.v, op); } else { OtherStarts(w, op); }
    }
  }

  lemma RecordCard(starts: Starts, peer: Peer, now: nat)
    ensures |Record(starts, peer, now)| == if peer in starts then |starts| else |starts| + 1
  {
    assert Record(starts, peer, now).Keys == starts.Keys + {peer};
    assert |Record(starts, peer, now).Keys| == |Record(starts, peer, now)| && |starts.Keys| == |starts|;
  }

  lemma BeginStarts(swept: Verifier, peer: Peer, binding: Binding, code: Code, now: nat, faults: Faults)
    ensures var n := Begin(swept, peer, binding, code, now, faults).0;
      var pruned := Prune(swept.starts, now);
      n.starts == if |swept.attempts| >= MAX_RETAINED_BOOTSTRAPS then swept.starts
                  else if PassesLimiter(swept, peer, binding.session, now) then Record(pruned, peer, now)
                  else pruned
  {
  }

  lemma SubmitStarts(v: Verifier, op: Op)
    requires op.OpSubmit?
    ensures Submit(v, op.id, op.challenge, op.code, op.now, op.fails, op.issueFails).0.starts == v.starts
  {
  }

  lemma OtherStarts(w: World, op: Op)
    requires !op.OpSubmit? && (op.OpStart? ==> op.now == 0)
    ensures Step(w, op).0.v.starts == w.v.starts && Step(w, op).0.passes == w.passes
  {
  }

  lemma {:induction false} RunKeepsLimiter(w: World, ops: seq<Op>, clock: nat)
    requires Limited(w, clock) && Monotone(ops, clock)
    ensures Limited(Run(w, ops), ClockAfter(clock, ops))
    decreases |ops|
  {
    if ops != [] {
      StepKeepsLimiter(w, ops[0], clock);
      RunKeepsLimiter(Step(w, ops[0]).0, ops[1..], Clock(clock, ops[0]));
    }
  }

  /** No empty history, and no more peers than the limit: this does not depend on the clock. */
  predicate Sized(starts: Starts) {
    |starts| <= MAX_TRACKED_PEERS && forall p | p in starts :: starts[p] != []
  }

  lemma BeginKeepsSized(swept: Verifier, op: Op)
    requires op.OpStart? && Sized(swept.starts)
    ensures Sized(Begin(swept, op.peer, op.binding, op.secret, op.now, op.faults).0.starts)
  {
    BeginStarts(swept, op.peer, op.binding, op.secret, op.now, op.faults);
    var pruned := Prune(swept.starts, op.now);
    CardOfFewer(pruned, swept.starts);
    RecordCard(pruned, op.peer, op.now);
  }

  lemma StepKeepsSized(w: World, op: Op)
    requires Sized(w.v.starts)
    ensures Sized(Step(w, op).0.v.starts)
  {
    if op.OpStart? && op.now != 0 {
      BeginKeepsSized(Swept(w.v, op.now, op.faults.closes), op);
    } else if op.OpSubmit? {
      SubmitStarts(w.v, op);
    } else {
      OtherStarts(w, op);
    }
  }

  lemma {:induction false} RunKeepsSized(w: World, ops: seq<Op>)
    requires Sized(w.v.starts)
    ensures Sized(Run(w, ops).v.starts)
    decreases |ops|
  {
    if ops != [] {
      StepKeepsSized(w, ops[0]);
      RunKeepsSized(Step(w, ops[0]).0, ops[1..]);
    }
  }

  /** Whatever the clock reads, at most 256 peers are tracked, none with an empty history. */
  lemma TrackedPeersAreLimited(ops: seq<Op>)
    ensures Sized(Run(EMPTY_WORLD, ops).v.starts)
  {
    RunKeepsSized(EMPTY_WORLD, ops);
  }

  /** Under a clock that never runs backwards, no 900-second window contains more than three limiter-passed starts of one peer. */
  lemma StartsAreLimited(ops: seq<Op>, peer: Peer, from: nat)
    requires Monotone(ops, 0)
    ensures |InWindow(TimesOf(Run(EMPTY_WORLD, ops).passes, peer), from, START_WINDOW)| <= MAX_PEER_STARTS
  {
    RunKeepsLimiter(EMPTY_WORLD, ops, 0);
    var w := Run(EMPTY_WORLD, ops);
    AtMostThreePerWindow(w.v.starts, w.passes, ClockAfter(0, ops), peer, from);
  }
}
