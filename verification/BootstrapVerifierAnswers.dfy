/** Whom the verifier certifies and whom it answers: submissions and reconciles against the starts reported before. */
module BootstrapVerifierAnswers {
  import opened Common
  import opened Sessions
  import opened StartLimiter
  import opened BootstrapVerifier
  import opened BootstrapVerifierRuns
  import opened BootstrapVerifierTheorems

  // ---------------------------------------------------------------- what was called and answered

  /** A start that was answered with a challenge: what it was called with, and the answer. */
  datatype Opening = Opening(peer: Peer, binding: Binding, secret: Code, at: nat, answer: Challenge)

  /** The answered starts by the identifier they returned, those still waiting for their code, and those rejected. */
  datatype History = History(openings: map<Id, Opening>, waiting: set<Id>, rejected: set<Id>)

  const EMPTY_HISTORY := History(map[], {}, {})

  /** The approval a start mints is the identifier after the one it returns. */
  function ApprovalOf(id: Id): Id {
    id + 1
  }

  function Deadline(o: Opening): nat {
    o.at + HARD_LIFETIME
  }

  /**
   * Whether an attempt goes on waiting, from a call and its answer: a submission ends it unless it was
   * answered with one of three errors, and a sweep or an accepted reconcile past its deadline ends it.
   */
  predicate GoesOn(op: Op, answer: Answer, id: Id, deadline: nat) {
    match op
    case OpSubmit(submitted, _, _, _, _, _) =>
      submitted == id && answer.Submitted? ==>
        answer.submitted == Err(InvalidValue) || answer.submitted == Err(InvalidChallenge) || answer.submitted == Err(CodeMismatch)
    case OpStart(_, _, _, now, _) => now <= deadline
    case OpReap(now, _) => now <= deadline
    case OpReconcile(approval, _, now, _) =>
      approval == ApprovalOf(id) && answer.Reconciled? && answer.reconciled.Ok? ==> now <= deadline
    case OpReconcileWire(approval, _, _, now, _) =>
      approval == ApprovalOf(id) && answer.Reconciled? && answer.reconciled.Ok? ==> now <= deadline
    case OpRetryCleanup(_, _) => true
    case OpRetryOrphan(_, _, _) => true
  }

  /** Rejected by a submission that used up its codes or its certificate, or by a cleanup that was retried. */
  predicate Rejects(op: Op, answer: Answer, id: Id) {
    match op
    case OpSubmit(submitted, _, _, _, _, _) =>
      submitted == id && answer.Submitted? &&
        (answer.submitted == Err(CodeRateLimited) || answer.submitted == Err(IssuanceFailed) || answer.submitted == Err(Overflow))
    case OpRetryCleanup(retried, _) => retried == id && answer == Cleaned(Ok(()))
    case _ => false
  }

  function Remember(h: History, op: Op, answer: Answer): History {
    var waiting := set id | id in h.waiting && id in h.openings && GoesOn(op, answer, id, Deadline(h.openings[id]));
    var rejected := h.rejected + set id | id in h.openings && Rejects(op, answer, id);
    if op.OpStart? && answer.Started? && answer.started.Ok? then
      var id := answer.started.value.bootstrap;
      History(h.openings[id := Opening(op.peer, op.binding, op.secret, op.now, answer.started.value)], waiting + {id}, rejected)
    else History(h.openings, waiting, rejected)
  }

  ghost function HistoryOf(w: World, h: History, ops: seq<Op>): History
    decreases |ops|
  {
    if ops == [] then h else HistoryOf(Step(w, ops[0]).0, Remember(h, ops[0], Step(w, ops[0]).1), ops[1..])
  }

  // ---------------------------------------------------------------- attempts are what their starts made

  predicate Made(id: Id, a: Attempt, o: Opening) {
    && o.answer == Challenge(id, id + 2, o.at + CODE_TTL)
    && a.peer == o.peer && a.binding == o.binding && a.hardExpires == Deadline(o)
    && a.challenge == o.answer.challenge && a.challengeExpires == o.answer.expires
    && (a.code.Some? ==> a.code == Some(o.secret))
  }

  predicate Waiting(v: Verifier, id: Id) {
    id in v.attempts && v.attempts[id].phase == AwaitingCode
  }

  predicate MadeAt(v: Verifier, h: History, id: Id) {
    id in v.attempts ==> id in h.openings && Made(id, v.attempts[id], h.openings[id])
  }

  predicate WaitsAt(v: Verifier, h: History, id: Id) {
    id in h.waiting <==> Waiting(v, id)
  }

  predicate RejectedIn(v: Verifier, id: Id) {
    id in v.attempts && v.attempts[id].phase == Rejected
  }

  predicate RejectedAt(v: Verifier, h: History, id: Id) {
    id in v.attempts ==> (id in h.rejected <==> RejectedIn(v, id))
  }

  ghost predicate Recorded(v: Verifier, h: History) {
    && (forall id: Id {:trigger RejectedAt(v, h, id)} :: RejectedAt(v, h, id))
    && h.rejected <= h.openings.Keys
    && (forall id: Id {:trigger MadeAt(v, h, id)} :: MadeAt(v, h, id))
    && (forall id: Id {:trigger WaitsAt(v, h, id)} :: WaitsAt(v, h, id))
    && (forall id | id in h.openings :: id < v.nextCounter)
  }

  lemma QuietKeepsMade(id: Id, a: Attempt, b: Attempt, o: Opening)
    requires Made(id, a, o) && Quiet(a, b)
    ensures Made(id, b, o)
  {
  }

  // ---------------------------------------------------------------- who goes on waiting

  /** No attempt is added and no identifier is minted. */
  predicate Leaves(v: Verifier, n: Verifier) {
    n.attempts.Keys <= v.attempts.Keys && n.nextCounter == v.nextCounter
  }

  lemma ReapWaits(v: Verifier, now: nat, fails: set<Id>, id: Id)
    ensures Waiting(Reap(v, now, fails), id) <==> Waiting(v, id) && now <= v.attempts[id].hardExpires
    ensures RejectedIn(Reap(v, now, fails), id) <==> RejectedIn(v, id)
  {
  }

  lemma SweptWaits(v: Verifier, now: nat, fails: set<Id>, id: Id)
    ensures Waiting(Swept(v, now, fails), id) <==> Waiting(v, id) && now <= v.attempts[id].hardExpires
    ensures RejectedIn(Swept(v, now, fails), id) ==> RejectedIn(v, id)
    ensures id in Swept(v, now, fails).attempts && RejectedIn(v, id) ==> RejectedIn(Swept(v, now, fails), id)
  {
    ReapWaits(v, now, fails, id);
  }

  lemma ReconcileWaits(v: Verifier, approval: Id, binding: Binding, now: nat, fails: set<Id>, id: Id)
    requires Fencing(v)
    ensures var (n, answer) := Reconcile(v, approval, binding, now, fails);
      && Leaves(v, n)
      && (Waiting(n, id) <==> Waiting(v, id) && (approval == ApprovalOf(id) && answer.Ok? ==> now <= v.attempts[id].hardExpires))
      && (RejectedIn(n, id) <==> RejectedIn(v, id))
  {
    if id in v.attempts {
      ApprovalsAreUnique(v, id);
      assert AttemptSound(v, id);
    }
    var found := FindApproval(v, approval);
    if found.Some? {
      assert AttemptSound(v, found.value);
    }
  }

  lemma ReconcileWireWaits(v: Verifier, approval: Id, coreBinding: Digest, session: Session, now: nat, fails: set<Id>, id: Id)
    requires Fencing(v)
    ensures var (n, answer) := ReconcileWire(v, approval, coreBinding, session, now, fails);
      && Leaves(v, n)
      && (Waiting(n, id) <==> Waiting(v, id) && (approval == ApprovalOf(id) && answer.Ok? ==> now <= v.attempts[id].hardExpires))
      && (RejectedIn(n, id) <==> RejectedIn(v, id))
  {
    var found := FindApproval(v, approval);
    if found.Some? {
      ReconcileWaits(v, approval, v.attempts[found.value].binding, now, fails, id);
    }
  }

  lemma RetriesWait(w: World, op: Op, id: Id)
    requires op.OpRetryCleanup? || op.OpRetryOrphan?
    ensures var n, answer := Step(w, op).0.v, Step(w, op).1;
      && Leaves(w.v, n) && (Waiting(n, id) <==> Waiting(w.v, id))
      && (RejectedIn(n, id) <==> RejectedIn(w.v, id) || Rejects(op, answer, id))
  {
  }

  /** An answered start adds the attempt it names; any other adds nothing. */
  predicate Opens(before: Verifier, n: Verifier, answer: Result<Challenge, VerifierError>, o: Opening) {
    if answer.Ok? then
      var id := before.nextCounter;
      && o.answer == answer.value == Challenge(id, id + 2, o.at + CODE_TTL) && n.nextCounter == id + 3
      && id in n.attempts && n.attempts == before.attempts[id := n.attempts[id]]
      && n.attempts[id].phase == AwaitingCode && Made(id, n.attempts[id], o)
    else n.attempts == before.attempts && n.nextCounter >= before.nextCounter
  }

  function OpeningOf(peer: Peer, binding: Binding, code: Code, now: nat, answer: Result<Challenge, VerifierError>): Opening {
    Opening(peer, binding, code, now, if answer.Ok? then answer.value else Challenge(0, 0, 0))
  }

  lemma OpenOpens(v: Verifier, peer: Peer, binding: Binding, code: Code, now: nat, faults: Faults)
    requires v.nextCounter <= U64_MAX
    ensures var (n, answer) := Open(v, peer, binding, code, now, faults);
      Opens(v, n, answer, OpeningOf(peer, binding, code, now, answer))
  {
  }

  lemma BeginOpens(swept: Verifier, peer: Peer, binding: Binding, code: Code, now: nat, faults: Faults)
    requires swept.nextCounter <= U64_MAX
    ensures var (n, answer) := Begin(swept, peer, binding, code, now, faults);
      Opens(swept, n, answer, OpeningOf(peer, binding, code, now, answer))
  {
    OpenOpens(swept.(starts := Record(Prune(swept.starts, now), peer, now)), peer, binding, code, now, faults);
  }

  // ---------------------------------------------------------------- one step

  /** The attempts a start begins with: those a sweep leaves, none of them past its deadline. */
  ghost predicate SweptFrom(v: Verifier, before: Verifier, now: nat) {
    && before.nextCounter == v.nextCounter && before.attempts.Keys <= v.attempts.Keys
    && (forall id | id in before.attempts :: Quiet(v.attempts[id], before.attempts[id]))
    && (forall id: Id {:trigger Waiting(before, id)} :: Waiting(before, id) <==> Waiting(v, id) && now <= v.attempts[id].hardExpires)
    && (forall id: Id {:trigger RejectedIn(before, id)} :: id in before.attempts ==> (RejectedIn(before, id) <==> RejectedIn(v, id)))
  }

  lemma SweepIsSwept(v: Verifier, now: nat, fails: set<Id>)
    requires Fencing(v)
    ensures SweptFrom(v, Swept(v, now, fails), now)
  {
    SweepMovesQuietly(v, now, fails);
    forall id: Id
      ensures Waiting(Swept(v, now, fails), id) <==> Waiting(v, id) && now <= v.attempts[id].hardExpires
      ensures id in Swept(v, now, fails).attempts ==> (RejectedIn(Swept(v, now, fails), id) <==> RejectedIn(v, id))
    {
      SweptWaits(v, now, fails, id);
    }
  }

  lemma OpeningRecords(v: Verifier, before: Verifier, n: Verifier, h: History, op: Op, answer: Result<Challenge, VerifierError>)
    requires op.OpStart? && Fencing(v) && Recorded(v, h) && SweptFrom(v, before, op.now)
    requires Opens(before, n, answer, OpeningOf(op.peer, op.binding, op.secret, op.now, answer))
    ensures Recorded(n, Remember(h, op, Started(answer)))
  {
    var k := Remember(h, op, Started(answer));
    forall id: Id ensures MadeAt(n, k, id) && WaitsAt(n, k, id) && RejectedAt(n, k, id) {
      assert MadeAt(v, h, id) && WaitsAt(v, h, id) && RejectedAt(v, h, id) && (Waiting(before, id) ==> Waiting(v, id));
      assert RejectedIn(before, id) ==> RejectedIn(v, id);
      if id in v.attempts {
        assert AttemptSound(v, id);
        if id in before.attempts {
          QuietKeepsMade(id, v.attempts[id], before.attempts[id], h.openings[id]);
        }
      }
    }
  }

  lemma StartRecords(w: World, h: History, op: Op)
    requires Fencing(w.v) && Recorded(w.v, h) && op.OpStart?
    ensures Recorded(Step(w, op).0.v, Remember(h, op, Step(w, op).1))
  {
    var (n, answer) := Start(w.v, op.peer, op.binding, op.secret, op.now, op.faults);
    if op.now == 0 {
      assert SweptFrom(w.v, w.v, 0);
      OpeningRecords(w.v, w.v, n, h, op, answer);
    } else {
      var swept := Swept(w.v, op.now, op.faults.closes);
      SweepIsSwept(w.v, op.now, op.faults.closes);
      BeginOpens(swept, op.peer, op.binding, op.secret, op.now, op.faults);
      OpeningRecords(w.v, swept, n, h, op, answer);
    }
  }

  /** Operations that open nothing: who goes on waiting decides the history. */
  lemma LeavingRecords(v: Verifier, n: Verifier, h: History, op: Op, answer: Answer)
    requires Recorded(v, h) && Leaves(v, n) && !op.OpStart?
    requires forall id | id in n.attempts && id in h.openings && Made(id, v.attempts[id], h.openings[id]) ::
               Made(id, n.attempts[id], h.openings[id])
    requires forall id | id in v.attempts && id in h.openings ::
               (Waiting(n, id) <==> Waiting(v, id) && GoesOn(op, answer, id, Deadline(h.openings[id])))
    requires forall id | id in n.attempts && id in h.openings :: (RejectedIn(n, id) <==> RejectedIn(v, id) || Rejects(op, answer, id))
    ensures Recorded(n, Remember(h, op, answer))
  {
    var k := Remember(h, op, answer);
    forall id: Id ensures MadeAt(n, k, id) && WaitsAt(n, k, id) && RejectedAt(n, k, id) {
      assert MadeAt(v, h, id) && WaitsAt(v, h, id) && RejectedAt(v, h, id);
    }
  }

  lemma QuietWaits(w: World, op: Op, id: Id)
    requires Fencing(w.v) && !op.OpStart? && !op.OpSubmit?
    ensures var (n, answer) := Step(w, op);
      && Leaves(w.v, n.v)
      && (Waiting(n.v, id) <==> Waiting(w.v, id) && GoesOn(op, answer, id, w.v.attempts[id].hardExpires))
      && (RejectedIn(n.v, id) <==> RejectedIn(w.v, id) || Rejects(op, answer, id))
  {
    match op
    case OpRetryCleanup(_, _) => RetriesWait(w, op, id);
    case OpRetryOrphan(_, _, _) => RetriesWait(w, op, id);
    case OpReconcile(approval, binding, now, fails) => ReconcileWaits(w.v, approval, binding, now, fails, id);
    case OpReconcileWire(approval, coreBinding, session, now, fails) =>
      ReconcileWireWaits(w.v, approval, coreBinding, session, now, fails, id);
    case OpReap(now, fails) => ReapWaits(w.v, now, fails, id);
  }

  lemma QuietRecords(w: World, h: History, op: Op)
    requires Fencing(w.v) && Recorded(w.v, h) && !op.OpStart? && !op.OpSubmit?
    ensures Recorded(Step(w, op).0.v, Remember(h, op, Step(w, op).1))
  {
    var (n, answer) := Step(w, op);
    StepMovesQuietly(w, op);
    QuietWaits(w, op, 0);
    forall id | id in n.v.attempts && id in h.openings && Made(id, w.v.attempts[id], h.openings[id])
      ensures Made(id, n.v.attempts[id], h.openings[id])
    {
      QuietKeepsMade(id, w.v.attempts[id], n.v.attempts[id], h.openings[id]);
    }
    forall id | id in w.v.attempts && id in h.openings
      ensures Waiting(n.v, id) <==> Waiting(w.v, id) && GoesOn(op, answer, id, Deadline(h.openings[id]))
    {
      assert MadeAt(w.v, h, id);
      QuietWaits(w, op, id);
    }
    forall id | id in n.v.attempts && id in h.openings
      ensures RejectedIn(n.v, id) <==> RejectedIn(w.v, id) || Rejects(op, answer, id)
    {
      QuietWaits(w, op, id);
    }
    LeavingRecords(w.v, n.v, h, op, answer);
  }

  // ---------------------------------------------------------------- submissions

  /** What a submission does to its attempt, by its answer. */
  lemma SubmissionWaits(v: Verifier, op: Op)
    requires Fencing(v) && op.OpSubmit? && Waiting(v, op.id)
    ensures var (n, answer) := Submit(v, op.id, op.challenge, op.code, op.now, op.fails, op.issueFails);
      && (Waiting(n, op.id) <==> GoesOn(op, Submitted(answer), op.id, v.attempts[op.id].hardExpires))
      && (RejectedIn(n, op.id) <==> Rejects(op, Submitted(answer), op.id))
  {
    assert AttemptSound(v, op.id);
  }

  lemma EndedIsUntouched(v: Verifier, op: Op, id: Id)
    requires Fencing(v) && op.OpSubmit? && id in v.attempts && !(id == op.id && Waiting(v, id))
    ensures var (n, answer) := Submit(v, op.id, op.challenge, op.code, op.now, op.fails, op.issueFails);
      id in n.attempts && n.attempts[id] == v.attempts[id] && !Rejects(op, Submitted(answer), id)
  {
    SubmissionMoves(v, op);
  }

  lemma SubmissionRecords(w: World, h: History, op: Op)
    requires Fencing(w.v) && Recorded(w.v, h) && op.OpSubmit?
    ensures Recorded(Step(w, op).0.v, Remember(h, op, Step(w, op).1))
  {
    var (n, answer) := Step(w, op);
    SubmissionMoves(w.v, op);
    forall id | id in w.v.attempts && id in h.openings
      ensures Waiting(n.v, id) <==> Waiting(w.v, id) && GoesOn(op, answer, id, Deadline(h.openings[id]))
    {
      assert MadeAt(w.v, h, id);
      if id == op.id && Waiting(w.v, id) { SubmissionWaits(w.v, op); }
    }
    forall id | id in n.v.attempts && id in h.openings
      ensures RejectedIn(n.v, id) <==> RejectedIn(w.v, id) || Rejects(op, answer, id)
    {
      if id == op.id && Waiting(w.v, id) { SubmissionWaits(w.v, op); } else { EndedIsUntouched(w.v, op, id); }
    }
    LeavingRecords(w.v, n.v, h, op, answer);
  }

  lemma {:induction false} RunRecords(w: World, h: History, ops: seq<Op>)
    requires Fencing(w.v) && Recorded(w.v, h)
    ensures Fencing(Run(w, ops).v) && Recorded(Run(w, ops).v, HistoryOf(w, h, ops))
    decreases |ops|
  {
    if ops != [] {
      StepKeepsFencing(w, ops[0]);
      if ops[0].OpStart? { StartRecords(w, h, ops[0]); }
      else if ops[0].OpSubmit? { SubmissionRecords(w, h, ops[0]); }
      else { QuietRecords(w, h, ops[0]); }
      RunRecords(Step(w, ops[0]).0, Remember(h, ops[0], Step(w, ops[0]).1), ops[1..]);
    }
  }

  // ---------------------------------------------------------------- whom a submission certifies

  /** The submission repeats the challenge and the secret of a start that still waits, in time. */
  predicate Entitled(h: History, op: Op)
    requires op.OpSubmit?
  {
    && op.id in h.waiting && op.id in h.openings
    && var o := h.openings[op.id];
    && op.challenge == o.answer.challenge && op.code == Some(o.secret) && 0 < op.now <= o.answer.expires
  }

  /** Neither the close of the workspace nor the issuer stands in its way. */
  predicate Unhindered(v: Verifier, op: Op)
    requires op.OpSubmit?
  {
    && op.id in v.attempts && CloseSucceeds(v, v.attempts[op.id].workspace, op.fails)
    && !op.issueFails && v.nextSerial < U64_MAX && op.now + CERTIFICATE_TTL <= U64_MAX
  }

  lemma WaitingSubmission(v: Verifier, h: History, op: Op)
    requires Fencing(v) && Recorded(v, h) && op.OpSubmit? && op.id in h.waiting
    ensures var (n, answer) := Submit(v, op.id, op.challenge, op.code, op.now, op.fails, op.issueFails);
      && (answer.Ok? <==> Entitled(h, op) && Unhindered(v, op))
      && (answer.Ok? ==> answer.value.approval == ApprovalOf(op.id) && answer.value.binding == h.openings[op.id].binding
                         && answer.value.notAfter == op.now + CERTIFICATE_TTL)
      && op.id in h.openings
      && (answer == Err(InvalidChallenge) <==> op.code.Some? && op.challenge != h.openings[op.id].answer.challenge)
      && (answer == Err(InvalidChallenge) ==> n == v)
  {
    assert MadeAt(v, h, op.id) && WaitsAt(v, h, op.id) && AttemptSound(v, op.id);
    var closed := Close(v, v.attempts[op.id].workspace, op.fails);
    IssueForShape(closed, op.id, op.now, op.issueFails);
    IssuesUnless(closed, op.id, op.now, op.issueFails);
  }

  lemma IssuesUnless(v: Verifier, id: Id, now: nat, fails: bool)
    requires id in v.attempts
    ensures var answer := IssueFor(v, id, now, fails).1;
      && (answer.Ok? <==> !fails && now != 0 && v.nextSerial < U64_MAX && now + CERTIFICATE_TTL <= U64_MAX)
      && answer != Err(InvalidChallenge)
  {
  }

  lemma EndedSubmission(v: Verifier, h: History, op: Op)
    requires Recorded(v, h) && op.OpSubmit? && op.id !in h.waiting
    ensures var (n, answer) := Submit(v, op.id, op.challenge, op.code, op.now, op.fails, op.issueFails);
      n == v && answer.Err? && answer != Err(InvalidChallenge)
  {
    assert WaitsAt(v, h, op.id);
  }

  /**
   * After any run a submission is answered with a certificate exactly when it names an answered start
   * that still waits, with the challenge that start returned, its secret and a clock reading in time,
   * and neither the close nor the issuer fails. The certificate is for the binding of that start.
   */
  lemma CertifiedExactlyWhenEntitled(ops: seq<Op>, submit: Op)
    requires submit.OpSubmit?
    ensures var w, h := Run(EMPTY_WORLD, ops), HistoryOf(EMPTY_WORLD, EMPTY_HISTORY, ops);
      var answer := Step(w, submit).1.submitted;
      && (answer.Ok? <==> Entitled(h, submit) && Unhindered(w.v, submit))
      && (answer.Ok? ==> answer.value.approval == ApprovalOf(submit.id) && answer.value.binding == h.openings[submit.id].binding
                         && answer.value.notAfter == submit.now + CERTIFICATE_TTL)
  {
    RunRecords(EMPTY_WORLD, EMPTY_HISTORY, ops);
    var w, h := Run(EMPTY_WORLD, ops), HistoryOf(EMPTY_WORLD, EMPTY_HISTORY, ops);
    if submit.id in h.waiting { WaitingSubmission(w.v, h, submit); } else { EndedSubmission(w.v, h, submit); }
  }

  /** A foreign challenge for a waiting start, and nothing else, is answered so, and changes nothing. */
  lemma ForeignChallengeIsRefused(ops: seq<Op>, submit: Op)
    requires submit.OpSubmit?
    ensures var w, h := Run(EMPTY_WORLD, ops), HistoryOf(EMPTY_WORLD, EMPTY_HISTORY, ops);
      var (n, answer) := Step(w, submit);
      && (answer == Submitted(Err(InvalidChallenge)) <==>
            submit.code.Some? && submit.id in h.waiting && submit.id in h.openings
            && submit.challenge != h.openings[submit.id].answer.challenge)
      && (answer == Submitted(Err(InvalidChallenge)) ==> n.v == w.v)
  {
    RunRecords(EMPTY_WORLD, EMPTY_HISTORY, ops);
    var w, h := Run(EMPTY_WORLD, ops), HistoryOf(EMPTY_WORLD, EMPTY_HISTORY, ops);
    if submit.id in h.waiting {
      assert MadeAt(w.v, h, submit.id) && WaitsAt(w.v, h, submit.id);
      WaitingSubmission(w.v, h, submit);
    } else {
      EndedSubmission(w.v, h, submit);
    }
  }

  /** Another secret than the start's, with its challenge, in time, while it waits. */
  predicate GuessesWrong(h: History, op: Op)
    requires op.OpSubmit?
  {
    && op.id in h.waiting && op.id in h.openings
    && var o := h.openings[op.id];
    && op.challenge == o.answer.challenge && 0 < op.now <= o.answer.expires && op.code.Some? && op.code != Some(o.secret)
  }

  lemma WrongCodeGuesses(v: Verifier, h: History, op: Op)
    requires Fencing(v) && Recorded(v, h) && op.OpSubmit?
    ensures ComparesWrongCode(v, op) <==> GuessesWrong(h, op)
  {
    assert MadeAt(v, h, op.id) && WaitsAt(v, h, op.id);
    if op.id in v.attempts { assert AttemptSound(v, op.id); }
  }

  /** Exactly the wrong guesses are counted as wrong codes. */
  lemma WrongCodeIsAnotherSecret(ops: seq<Op>, submit: Op)
    requires submit.OpSubmit?
    ensures ComparesWrongCode(Run(EMPTY_WORLD, ops).v, submit) <==> GuessesWrong(HistoryOf(EMPTY_WORLD, EMPTY_HISTORY, ops), submit)
  {
    RunRecords(EMPTY_WORLD, EMPTY_HISTORY, ops);
    WrongCodeGuesses(Run(EMPTY_WORLD, ops).v, HistoryOf(EMPTY_WORLD, EMPTY_HISTORY, ops), submit);
  }

  /** Every answered start returns an identifier that no start returned before. */
  lemma OpeningsAreNew(ops: seq<Op>, start: Op)
    requires start.OpStart?
    ensures var w, h := Run(EMPTY_WORLD, ops), HistoryOf(EMPTY_WORLD, EMPTY_HISTORY, ops);
      var answer := Step(w, start).1.started;
      answer.Ok? ==> answer.value.bootstrap !in h.openings
                     && answer.value == Challenge(answer.value.bootstrap, answer.value.bootstrap + 2, start.now + CODE_TTL)
  {
    RunRecords(EMPTY_WORLD, EMPTY_HISTORY, ops);
    var w := Run(EMPTY_WORLD, ops);
    BeginOpens(Swept(w.v, start.now, start.faults.closes), start.peer, start.binding, start.secret, start.now, start.faults);
  }

  // ---------------------------------------------------------------- whom a reconcile answers

  predicate Certified(issuances: seq<Issuance>, issuance: Issuance) {
    exists k :: 0 <= k < |issuances| && issuances[k] == issuance
  }

  predicate BackedAt(w: World, id: Id)
    requires id in w.v.attempts
  {
    var a := w.v.attempts[id];
    a.phase == Issued && a.issued.Some? && a.issuedAt.Some? ==>
      Certified(w.issuances, Issuance(id, a.binding, a.issued.value, a.issuedAt.value))
  }

  /** Whatever an attempt holds as issued was answered by a submission. */
  ghost predicate Backed(w: World) {
    forall id {:trigger BackedAt(w, id)} | id in w.v.attempts :: BackedAt(w, id)
  }

  lemma CertifiedStays(issuances: seq<Issuance>, longer: seq<Issuance>, issuance: Issuance)
    requires issuances <= longer && Certified(issuances, issuance)
    ensures Certified(longer, issuance)
  {
    var k :| 0 <= k < |issuances| && issuances[k] == issuance;
    assert longer[k] == issuance;
  }

  lemma QuietKeepsBacked(w: World, op: Op)
    requires Fencing(w.v) && Backed(w) && !op.OpSubmit?
    ensures Backed(Step(w, op).0)
  {
    StepMovesQuietly(w, op);
    var n := Step(w, op).0;
    forall id | id in n.v.attempts ensures BackedAt(n, id) {
      assert id in w.v.attempts ==> BackedAt(w, id);
    }
  }

  lemma SubmissionAppends(w: World, op: Op)
    requires op.OpSubmit? && Step(w, op).1.submitted.Ok?
    ensures Step(w, op).0.issuances == w.issuances + [Issuance(op.id, w.v.attempts[op.id].binding, Step(w, op).1.submitted.value, op.now)]
  {
  }

  lemma SubmissionKeepsBacked(w: World, op: Op)
    requires Fencing(w.v) && Backed(w) && op.OpSubmit?
    ensures Backed(Step(w, op).0)
  {
    SubmissionMoves(w.v, op);
    var n, answer := Step(w, op).0, Step(w, op).1.submitted;
    forall id | id in n.v.attempts ensures BackedAt(n, id) {
      assert BackedAt(w, id);
      var a := n.v.attempts[id];
      if a.phase == Issued && a.issued.Some? && a.issuedAt.Some? {
        var issuance := Issuance(id, a.binding, a.issued.value, a.issuedAt.value);
        if answer.Ok? && id == op.id {
          SubmissionAppends(w, op);
          assert n.issuances[|w.issuances|] == issuance;
        } else {
          CertifiedStays(w.issuances, n.issuances, issuance);
        }
      }
    }
  }

  lemma {:induction false} RunKeepsBacked(w: World, ops: seq<Op>)
    requires Fencing(w.v) && Backed(w)
    ensures Backed(Run(w, ops))
    decreases |ops|
  {
    if ops != [] {
      StepKeepsFencing(w, ops[0]);
      if ops[0].OpSubmit? { SubmissionKeepsBacked(w, ops[0]); } else { QuietKeepsBacked(w, ops[0]); }
      RunKeepsBacked(Step(w, ops[0]).0, ops[1..]);
    }
  }

  /** The reconcile names the approval and the binding of the start `id`, as far as it carries a binding. */
  predicate Names(op: Op, id: Id, o: Opening) {
    match op
    case OpReconcile(approval, binding, _, _) => approval == ApprovalOf(id) && binding == o.binding
    case OpReconcileWire(approval, coreBinding, session, _, _) =>
      approval == ApprovalOf(id) && coreBinding == o.binding.coreBinding && session == o.binding.session
    case _ => false
  }

  /** What a reconcile may say about the start it names. */
  ghost predicate Truthful(w: World, h: History, id: Id, answer: Recovery, now: nat)
    requires id in h.openings
  {
    match answer
    case Pending(expires) => expires == Deadline(h.openings[id]) && !HasIssued(w.issuances, id)
    case Recovered(metadata) =>
      exists at: nat :: at <= now <= at + RECOVERY_TTL && Certified(w.issuances, Issuance(id, h.openings[id].binding, metadata, at))
    case Refused(code) =>
      code == (if id in h.rejected then 1 else 2) && (id !in h.waiting || now > Deadline(h.openings[id]))
  }

  lemma FoundIsTheStart(v: Verifier, approval: Id)
    requires Fencing(v) && FindApproval(v, approval).Some?
    ensures approval == ApprovalOf(FindApproval(v, approval).value) && FindApproval(v, approval).value in v.attempts
  {
    assert AttemptSound(v, FindApproval(v, approval).value);
  }

  /** The invariants of a run that say what its attempts are. */
  ghost predicate Known(w: World, h: History) {
    Fencing(w.v) && Recorded(w.v, h) && Ledger(w) && Backed(w)
  }

  lemma RunIsKnown(ops: seq<Op>)
    ensures Known(Run(EMPTY_WORLD, ops), HistoryOf(EMPTY_WORLD, EMPTY_HISTORY, ops))
  {
    RunRecords(EMPTY_WORLD, EMPTY_HISTORY, ops);
    RunKeepsLedger(EMPTY_WORLD, ops);
    RunKeepsBacked(EMPTY_WORLD, ops);
  }

  lemma RecoveryIsTruthful(w: World, h: History, id: Id, now: nat)
    requires Known(w, h) && id in w.v.attempts && id in h.openings
    requires w.v.attempts[id].phase == AwaitingCode ==> now <= w.v.attempts[id].hardExpires
    ensures var answer := RecoveryOf(w.v, id, now).1;
      answer.Ok? ==> Truthful(w, h, id, answer.value, now)
  {
    assert MadeAt(w.v, h, id) && WaitsAt(w.v, h, id) && RejectedAt(w.v, h, id);
    assert AttemptSound(w.v, id) && AttemptLedger(w, id) && BackedAt(w, id);
  }

  lemma LateIsTruthful(w: World, h: History, id: Id, now: nat, fails: set<Id>)
    requires Known(w, h) && Waiting(w.v, id) && now > w.v.attempts[id].hardExpires && id in h.openings
    ensures Truthful(w, h, id, Refused(2), now)
    ensures var ended := CloseThenEnd(w.v, id, Elapsed, fails);
      !ended.1 ==> RecoveryOf(ended.0, id, now).1.Ok? && Truthful(w, h, id, RecoveryOf(ended.0, id, now).1.value, now)
  {
    assert MadeAt(w.v, h, id) && RejectedAt(w.v, h, id) && AttemptLedger(w, id);
  }

  /** The answer, if it is one, is a true one about the start the reconcile names. */
  ghost predicate AnswersOwn(w: World, h: History, op: Op, answer: Result<Recovery, VerifierError>)
    requires op.OpReconcile? || op.OpReconcileWire?
  {
    answer.Ok? ==> exists id :: id in h.openings && Names(op, id, h.openings[id]) && Truthful(w, h, id, answer.value, op.now)
  }

  lemma ReconcileAnswersOwn(w: World, h: History, op: Op)
    requires op.OpReconcile? && Known(w, h)
    ensures AnswersOwn(w, h, op, Reconcile(w.v, op.approval, op.binding, op.now, op.fails).1)
  {
    if Reconcile(w.v, op.approval, op.binding, op.now, op.fails).1.Ok? {
      FoundIsTheStart(w.v, op.approval);
      var id := FindApproval(w.v, op.approval).value;
      assert MadeAt(w.v, h, id);
      assert id in h.openings && Names(op, id, h.openings[id]);
      if Waiting(w.v, id) && op.now > w.v.attempts[id].hardExpires {
        LateIsTruthful(w, h, id, op.now, op.fails);
      } else {
        RecoveryIsTruthful(w, h, id, op.now);
      }
    }
  }

  /** The reconcile a wire reconcile comes to, when it comes to one. */
  lemma WireAnswersOwn(w: World, h: History, op: Op)
    requires op.OpReconcileWire? && Known(w, h)
    ensures AnswersOwn(w, h, op, ReconcileWire(w.v, op.approval, op.coreBinding, op.session, op.now, op.fails).1)
  {
    if ReconcileWire(w.v, op.approval, op.coreBinding, op.session, op.now, op.fails).1.Ok? {
      FoundIsTheStart(w.v, op.approval);
      var found := FindApproval(w.v, op.approval).value;
      assert MadeAt(w.v, h, found);
      var whole := OpReconcile(op.approval, w.v.attempts[found].binding, op.now, op.fails);
      ReconcileAnswersOwn(w, h, whole);
      var answer := Reconcile(w.v, whole.approval, whole.binding, whole.now, whole.fails).1;
      var id :| id in h.openings && Names(whole, id, h.openings[id]) && Truthful(w, h, id, answer.value, op.now);
      assert Names(op, id, h.openings[id]);
    }
  }

  /**
   * After any run a reconcile that is answered names the approval of an answered start and its binding,
   * in full or as far as the wire carries it. The answer is true of that start: pending only with its
   * deadline and without a certificate, recovered only with what a submission of it was answered in the
   * 24 hours before, and refused only once it waits no longer, with the code that says whether it was
   * rejected or lapsed.
   */
  lemma ReconcileAnswersOnlyItsCore(ops: seq<Op>, op: Op)
    requires op.OpReconcile? || op.OpReconcileWire?
    ensures var w, h := Run(EMPTY_WORLD, ops), HistoryOf(EMPTY_WORLD, EMPTY_HISTORY, ops);
      AnswersOwn(w, h, op, Step(w, op).1.reconciled)
  {
    RunIsKnown(ops);
    var w, h := Run(EMPTY_WORLD, ops), HistoryOf(EMPTY_WORLD, EMPTY_HISTORY, ops);
    if op.OpReconcile? { ReconcileAnswersOwn(w, h, op); } else { WireAnswersOwn(w, h, op); }
  }

  /** A reconcile that names the approval of a start but not its binding is refused and changes nothing. */
  lemma ForeignBindingIsRefused(ops: seq<Op>, op: Op, id: Id)
    requires (op.OpReconcile? || (op.OpReconcileWire? && ValidSession(op.session))) && op.approval == ApprovalOf(id) && op.now != 0
    requires var h := HistoryOf(EMPTY_WORLD, EMPTY_HISTORY, ops);
      id in h.openings && !Names(op, id, h.openings[id])
    ensures var w := Run(EMPTY_WORLD, ops);
      Step(w, op) == (w, Reconciled(Err(if id in w.v.attempts then AuthorityMismatch else NotFound)))
  {
    RunIsKnown(ops);
    var w, h := Run(EMPTY_WORLD, ops), HistoryOf(EMPTY_WORLD, EMPTY_HISTORY, ops);
    assert MadeAt(w.v, h, id);
    if id in w.v.attempts {
      ApprovalsAreUnique(w.v, id);
    } else if FindApproval(w.v, op.approval).Some? {
      FoundIsTheStart(w.v, op.approval);
    }
  }

  /** No hidden workspace is added or changed. */
  predicate Fewer(v: Verifier, n: Verifier) {
    forall x | x in n.workspaces :: x in v.workspaces && n.workspaces[x] == v.workspaces[x]
  }

  lemma BeginRollsBack(swept: Verifier, peer: Peer, binding: Binding, code: Code, now: nat, faults: Faults)
    requires forall x | x in swept.workspaces :: x < swept.nextWorkspace
    ensures var (n, answer) := Begin(swept, peer, binding, code, now, faults);
      if answer.Ok? then n.workspaces == swept.workspaces[swept.nextWorkspace := binding.session] && !faults.create && !faults.readback
      else Fewer(swept, n) || (faults.readback && !faults.create && swept.nextWorkspace in faults.closes
                               && n.workspaces == swept.workspaces[swept.nextWorkspace := binding.session])
  {
  }

  predicate Numbered(v: Verifier) {
    forall x | x in v.workspaces :: x < v.nextWorkspace
  }

  lemma StartKeepsNumbered(v: Verifier, op: Op)
    requires Numbered(v) && op.OpStart? && op.now != 0
    ensures Numbered(Start(v, op.peer, op.binding, op.secret, op.now, op.faults).0)
  {
    var swept := Swept(v, op.now, op.faults.closes);
    BeginRollsBack(swept, op.peer, op.binding, op.secret, op.now, op.faults);
    BeginCountsWorkspaces(swept, op.peer, op.binding, op.secret, op.now, op.faults);
  }

  lemma SubmitKeepsNumbered(v: Verifier, op: Op)
    requires Numbered(v) && op.OpSubmit?
    ensures Numbered(Submit(v, op.id, op.challenge, op.code, op.now, op.fails, op.issueFails).0)
  {
  }

  lemma ReconcileKeepsNumbered(v: Verifier, approval: Id, binding: Binding, now: nat, fails: set<Id>)
    requires Numbered(v)
    ensures Numbered(Reconcile(v, approval, binding, now, fails).0)
  {
  }

  lemma OthersKeepNumbered(w: World, op: Op)
    requires Numbered(w.v) && !op.OpStart?
    ensures Numbered(Step(w, op).0.v)
  {
    match op
    case OpSubmit(_, _, _, _, _, _) => SubmitKeepsNumbered(w.v, op);
    case OpReconcile(approval, binding, now, fails) => ReconcileKeepsNumbered(w.v, approval, binding, now, fails);
    case OpReconcileWire(approval, _, _, now, fails) =>
      var found := FindApproval(w.v, approval);
      if found.Some? { ReconcileKeepsNumbered(w.v, approval, w.v.attempts[found.value].binding, now, fails); }
    case _ =>
  }

  lemma StepKeepsNumbered(w: World, op: Op)
    requires Numbered(w.v)
    ensures Numbered(Step(w, op).0.v)
  {
    if !op.OpStart? {
      OthersKeepNumbered(w, op);
    } else if op.now != 0 {
      StartKeepsNumbered(w.v, op);
    }
  }

  lemma BeginCountsWorkspaces(swept: Verifier, peer: Peer, binding: Binding, code: Code, now: nat, faults: Faults)
    ensures var n := Begin(swept, peer, binding, code, now, faults).0;
      if swept.nextWorkspace in n.workspaces && swept.nextWorkspace !in swept.workspaces then n.nextWorkspace == swept.nextWorkspace + 1
      else n.nextWorkspace >= swept.nextWorkspace
  {
  }

  lemma {:induction false} RunKeepsNumbered(w: World, ops: seq<Op>)
    requires Numbered(w.v)
    ensures Numbered(Run(w, ops).v)
    decreases |ops|
  {
    if ops != [] {
      StepKeepsNumbered(w, ops[0]);
      RunKeepsNumbered(Step(w, ops[0]).0, ops[1..]);
    }
  }

  /**
   * A start that is answered keeps exactly one new workspace, created and read back, for its session. One
   * that is refused keeps none, unless the workspace it could not read back would not close either.
   */
  lemma RefusedStartsLeaveNoWorkspace(ops: seq<Op>, start: Op)
    requires start.OpStart?
    ensures var w := Run(EMPTY_WORLD, ops);
      var (n, answer) := Step(w, start);
      var added := set x | x in n.v.workspaces && (x !in w.v.workspaces || n.v.workspaces[x] != w.v.workspaces[x]);
      if answer.started.Ok? then
        added == {w.v.nextWorkspace} && n.v.workspaces[w.v.nextWorkspace] == start.binding.session && !start.faults.create && !start.faults.readback
      else added == {} || (added == {w.v.nextWorkspace} && start.faults.readback && w.v.nextWorkspace in start.faults.closes)
  {
    RunKeepsNumbered(EMPTY_WORLD, ops);
    var w := Run(EMPTY_WORLD, ops);
    if start.now != 0 {
      var swept := Swept(w.v, start.now, start.faults.closes);
      assert swept.nextWorkspace == w.v.nextWorkspace && Fewer(w.v, swept);
      BeginRollsBack(swept, start.peer, start.binding, start.secret, start.now, start.faults);
    }
  }

  /** None of this is empty: from nothing, the first start is answered, certified by its secret, and recovered. */
  lemma FirstAttemptSucceeds(peer: Peer, binding: Binding, secret: Code, now: nat, at: nat)
    requires 0 < now <= at <= now + CODE_TTL && at + CERTIFICATE_TTL <= U64_MAX
    ensures var start, submit := OpStart(peer, binding, secret, now, Faults({}, false, false)), OpSubmit(1, 3, Some(secret), at, {}, false);
      var metadata := Metadata(2, binding, 1, at + CERTIFICATE_TTL);
      && Step(EMPTY_WORLD, start).1 == Started(Ok(Challenge(1, 3, now + CODE_TTL)))
      && Step(Step(EMPTY_WORLD, start).0, submit).1 == Submitted(Ok(metadata))
      && Step(Step(Step(EMPTY_WORLD, start).0, submit).0, OpReconcile(2, binding, at, {})).1 == Reconciled(Ok(Recovered(metadata)))
  {
    var start, submit := OpStart(peer, binding, secret, now, Faults({}, false, false)), OpSubmit(1, 3, Some(secret), at, {}, false);
    FirstStart(peer, binding, secret, now);
    var started := Step(EMPTY_WORLD, start).0;
    StepKeepsFencing(EMPTY_WORLD, start);
    StepKeepsFencing(started, submit);
    FirstSubmission(started, binding, secret, now, at);
    HeldIsRecovered(Step(started, submit).0, Issuance(1, binding, Metadata(2, binding, 1, at + CERTIFICATE_TTL), at), at, {});
  }

  lemma FirstSubmission(w: World, binding: Binding, secret: Code, now: nat, at: nat)
    requires 1 in w.v.attempts && 1 in w.v.workspaces && w.v.nextSerial == 1 && 0 < now <= at <= now + CODE_TTL && at + CERTIFICATE_TTL <= U64_MAX
    requires var a := w.v.attempts[1];
      && a.binding == binding && a.approval == 2 && a.workspace == 1 && a.code == Some(secret) && a.challenge == 3
      && a.challengeExpires == now + CODE_TTL && a.hardExpires == now + HARD_LIFETIME && a.phase == AwaitingCode
    ensures var metadata := Metadata(2, binding, 1, at + CERTIFICATE_TTL);
      var (n, answer) := Step(w, OpSubmit(1, 3, Some(secret), at, {}, false));
      answer == Submitted(Ok(metadata)) && Held(n.v, Issuance(1, binding, metadata, at))
  {
    IssueForShape(Close(w.v, 1, {}), 1, at, false);
  }

  lemma FirstStart(peer: Peer, binding: Binding, secret: Code, now: nat)
    requires 0 < now && now + CERTIFICATE_TTL <= U64_MAX
    ensures var (v, answer) := Start(NEW_VERIFIER, peer, binding, secret, now, Faults({}, false, false));
      && answer == Ok(Challenge(1, 3, now + CODE_TTL))
      && v.attempts == map[1 := Attempt(binding, peer, 2, 1, Some(secret), 3, now + CODE_TTL, now + HARD_LIFETIME, 0, AwaitingCode, None, None)]
      && v.workspaces == map[1 := binding.session] && v.nextSerial == 1
  {
    var swept := Swept(NEW_VERIFIER, now, {});
    assert swept == NEW_VERIFIER;
    assert Prune(map[], now) == map[];
  }
}
