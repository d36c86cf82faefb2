/** Whole runs of the bootstrap verifier: what every operation keeps. */
module BootstrapVerifierRuns {
  import opened Common
  import opened Sessions
  import opened StartLimiter
  import opened BootstrapVerifier

  // ---------------------------------------------------------------- runs

  /** One issued certificate: the attempt, its binding, what was returned and when. */
  datatype Issuance = Issuance(id: Id, binding: Binding, metadata: Metadata, at: nat)

  /** The verifier with what it has done: issuances, limiter-passed starts, and wrong codes compared. */
  datatype World = World(v: Verifier, issuances: seq<Issuance>, passes: seq<Pass>, wrong: multiset<Id>)

  datatype Op =
    | OpStart(peer: Peer, binding: Binding, secret: Code, now: nat, faults: Faults)
    | OpSubmit(id: Id, challenge: Id, code: Option<Code>, now: nat, fails: set<Id>, issueFails: bool)
    | OpRetryCleanup(id: Id, fails: set<Id>)
    | OpRetryOrphan(session: Session, chosen: Id, fails: set<Id>)
    | OpReconcile(approval: Id, binding: Binding, now: nat, fails: set<Id>)
    | OpReconcileWire(approval: Id, coreBinding: Digest, session: Session, now: nat, fails: set<Id>)
    | OpReap(now: nat, fails: set<Id>)

  datatype Answer =
    | Silent
    | Cleaned(cleaned: Result<(), VerifierError>)
    | Started(started: Result<Challenge, VerifierError>)
    | Submitted(submitted: Result<Metadata, VerifierError>)
    | Reconciled(reconciled: Result<Recovery, VerifierError>)

  const EMPTY_WORLD := World(NEW_VERIFIER, [], [], multiset{})

  /** Whether a start on the swept verifier passes the limiter. */
  predicate PassesLimiter(swept: Verifier, peer: Peer, session: Session, now: nat) {
    && |swept.attempts| < MAX_RETAINED_BOOTSTRAPS
    && Refusal(swept.(starts := Prune(swept.starts, now)), peer, session).None?
  }

  predicate Passes(v: Verifier, peer: Peer, session: Session, now: nat, fails: set<Id>) {
    now != 0 && PassesLimiter(Swept(v, now, fails), peer, session, now)
  }

  predicate ComparesWrongCode(v: Verifier, op: Op)
    requires op.OpSubmit?
  {
    && SubmitRefusal(v, op.id, op.challenge, op.code).None?
    && !TooLate(v.attempts[op.id], op.now)
    && v.attempts[op.id].code.Some? && v.attempts[op.id].code != op.code
  }

  predicate ChoosesWorkspace(v: Verifier, op: Op)
    requires op.OpRetryOrphan?
  {
    HasSession(v, op.session) ==> op.chosen in v.workspaces && v.workspaces[op.chosen] == op.session
  }

  ghost function Step(w: World, op: Op): (World, Answer) {
    match op
    case OpStart(peer, binding, secret, now, faults) =>
      var (v, answer) := Start(w.v, peer, binding, secret, now, faults);
      (w.(v := v, passes := if Passes(w.v, peer, binding.session, now, faults.closes) then w.passes + [Pass(peer, now)] else w.passes),
       Started(answer))
    case OpSubmit(id, challenge, code, now, fails, issueFails) =>
      var (v, answer) := Submit(w.v, id, challenge, code, now, fails, issueFails);
      (w.(v := v,
          issuances := if answer.Ok? then w.issuances + [Issuance(id, w.v.attempts[id].binding, answer.value, now)] else w.issuances,
          wrong := if ComparesWrongCode(w.v, op) then w.wrong + multiset{id} else w.wrong),
       Submitted(answer))
    case OpRetryCleanup(id, fails) =>
      var (v, answer) := RetryCleanup(w.v, id, fails);
      (w.(v := v), Cleaned(answer))
    case OpRetryOrphan(session, chosen, fails) =>
      if ChoosesWorkspace(w.v, op) then (w.(v := RetryOrphan(w.v, session, chosen, fails).0), Silent) else (w, Silent)
    case OpReconcile(approval, binding, now, fails) =>
      var (v, answer) := Reconcile(w.v, approval, binding, now, fails);
      (w.(v := v), Reconciled(answer))
    case OpReconcileWire(approval, coreBinding, session, now, fails) =>
      var (v, answer) := ReconcileWire(w.v, approval, coreBinding, session, now, fails);
      (w.(v := v), Reconciled(answer))
    case OpReap(now, fails) => (w.(v := Reap(w.v, now, fails)), Silent)
  }

  ghost function Run(w: World, ops: seq<Op>): World
    decreases |ops|
  {
    if ops == [] then w else Run(Step(w, ops[0]).0, ops[1..])
  }

  // ---------------------------------------------------------------- attempts and fences

  predicate Active(attempt: Attempt) {
    attempt.phase != Rejected && attempt.phase != Elapsed
  }

  predicate AttemptSound(v: Verifier, id: Id)
    requires id in v.attempts
  {
    var a := v.attempts[id];
    && id + 2 < v.nextCounter && a.approval == id + 1 && a.challenge == id + 2 && a.workspace < v.nextWorkspace
    && (Active(a) ==> a.binding.session in v.fences && v.fences[a.binding.session] == id)
    && (a.phase == AwaitingCode ==> a.code.Some?)
    && (a.phase == Issued ==> a.issued.Some? && a.issuedAt.Some? && a.issuedAt.value + CERTIFICATE_TTL <= U64_MAX)
  }

  predicate FenceSound(v: Verifier, session: Session)
    requires session in v.fences
  {
    var id := v.fences[session];
    id in v.attempts && Active(v.attempts[id]) && v.attempts[id].binding.session == session
  }

  predicate Apart(v: Verifier, i: Id, j: Id)
    requires i in v.attempts && j in v.attempts
  {
    v.attempts[i].workspace != v.attempts[j].workspace
  }

  predicate DistinctWorkspaces(v: Verifier) {
    forall i, j {:trigger Apart(v, i, j)} | i in v.attempts && j in v.attempts && i != j :: Apart(v, i, j)
  }

  /** Fences and attempts that have not ended are in bijection, at most eight of them. */
  predicate Fencing(v: Verifier) {
    && v.nextCounter <= U64_MAX
    && (forall id {:trigger AttemptSound(v, id)} | id in v.attempts :: AttemptSound(v, id))
    && (forall s {:trigger FenceSound(v, s)} | s in v.fences :: FenceSound(v, s))
    && DistinctWorkspaces(v)
    && |v.fences| <= MAX_ACTIVE_BOOTSTRAPS
    && |v.attempts| <= MAX_ACTIVE_BOOTSTRAPS
  }

  lemma CardOfFewer<A, B>(small: map<A, B>, large: map<A, B>)
    requires small.Keys <= large.Keys
    ensures |small| <= |large|
  {
    SubsetCard(small.Keys, large.Keys);
    assert |small.Keys| == |small| && |large.Keys| == |large|;
  }

  /** Fewer attempts and fences, the same workspaces: the parts of `Fencing` that only shrink. */
  lemma ShrinkingKeeps(v: Verifier, n: Verifier)
    requires Fencing(v) && n.attempts.Keys <= v.attempts.Keys && n.fences.Keys <= v.fences.Keys
    requires forall i | i in n.attempts :: n.attempts[i].workspace == v.attempts[i].workspace
    ensures DistinctWorkspaces(n) && |n.fences| <= |v.fences| && |n.attempts| <= |v.attempts|
  {
    CardOfFewer(n.fences, v.fences);
    CardOfFewer(n.attempts, v.attempts);
    forall i, j | i in n.attempts && j in n.attempts && i != j ensures Apart(n, i, j) {
      assert Apart(v, i, j);
    }
  }

  lemma OthersKeepTheirSessions(v: Verifier, id: Id, other: Id)
    requires Fencing(v) && id in v.attempts && other in v.attempts && id != other
    requires Active(v.attempts[id]) && Active(v.attempts[other])
    ensures v.attempts[id].binding.session != v.attempts[other].binding.session
  {
    assert AttemptSound(v, id) && AttemptSound(v, other);
  }

  /** Ending an active attempt removes its own fence and no other. */
  lemma MarkTerminalKeepsFencing(v: Verifier, id: Id, phase: Phase)
    requires Fencing(v) && id in v.attempts && Active(v.attempts[id]) && (phase == Rejected || phase == Elapsed)
    ensures Fencing(MarkTerminal(v, id, phase))
  {
    var n := MarkTerminal(v, id, phase);
    ShrinkingKeeps(v, n);
    forall i | i in n.attempts ensures AttemptSound(n, i) {
      assert AttemptSound(v, i);
      if i != id && Active(v.attempts[i]) { OthersKeepTheirSessions(v, id, i); }
    }
    forall s | s in n.fences ensures FenceSound(n, s) {
      assert FenceSound(v, s);
      assert AttemptSound(v, id);
    }
  }

  /** Ending an attempt releases exactly the fences that point at it. */
  lemma MarkTerminalReleasesOnlyItsOwn(v: Verifier, id: Id, phase: Phase)
    requires Fencing(v) && id in v.attempts && Active(v.attempts[id])
    ensures forall s | s in v.fences :: s !in MarkTerminal(v, id, phase).fences <==> v.fences[s] == id
  {
    assert AttemptSound(v, id);
    forall s | s in v.fences ensures s == v.attempts[id].binding.session <==> v.fences[s] == id {
      assert FenceSound(v, s);
    }
  }

  /** Replacing an active attempt by another of the same standing. */
  lemma UpdateKeepsFencing(v: Verifier, id: Id, attempt: Attempt)
    requires Fencing(v) && id in v.attempts && Active(v.attempts[id]) && Active(attempt)
    requires attempt.binding == v.attempts[id].binding && attempt.workspace == v.attempts[id].workspace
    requires AttemptSound(v.(attempts := v.attempts[id := attempt]), id)
    ensures Fencing(v.(attempts := v.attempts[id := attempt]))
  {
    var n := v.(attempts := v.attempts[id := attempt]);
    ShrinkingKeeps(v, n);
    forall i | i in n.attempts ensures AttemptSound(n, i) {
      assert i != id ==> AttemptSound(v, i);
    }
    forall s | s in n.fences ensures FenceSound(n, s) {
      assert FenceSound(v, s);
    }
  }

  lemma CloseThenEndKeepsFencing(v: Verifier, id: Id, phase: Phase, fails: set<Id>)
    requires Fencing(v) && id in v.attempts && Pendable(v.attempts[id]) && (phase == Rejected || phase == Elapsed)
    ensures Fencing(CloseThenEnd(v, id, phase, fails).0)
  {
    var closed := Close(v, v.attempts[id].workspace, fails);
    assert AttemptSound(v, id);
    CloseKeepsFencing(v, v.attempts[id].workspace, fails);
    MarkTerminalKeepsFencing(closed, id, phase);
    UpdateKeepsFencing(v, id, v.attempts[id].(phase := Cleaning));
  }

  lemma CloseKeepsFencing(v: Verifier, workspace: Id, fails: set<Id>)
    requires Fencing(v)
    ensures Fencing(Close(v, workspace, fails))
  {
    WorkspacesAreNotFencing(v, v.(workspaces := v.workspaces - {workspace}));
  }

  lemma WorkspacesAreNotFencing(v: Verifier, n: Verifier)
    requires Fencing(v) && n.attempts == v.attempts && n.fences == v.fences
    requires v.nextCounter <= n.nextCounter <= U64_MAX && v.nextWorkspace <= n.nextWorkspace
    ensures Fencing(n)
  {
    ShrinkingKeeps(v, n);
    forall i | i in n.attempts ensures AttemptSound(n, i) {
      assert AttemptSound(v, i);
    }
    forall s | s in n.fences ensures FenceSound(n, s) {
      assert FenceSound(v, s);
    }
  }

  lemma ReapedFence(v: Verifier, now: nat, fails: set<Id>, id: Id)
    requires Fencing(v) && now != 0 && id in v.attempts && Active(v.attempts[id])
    ensures v.attempts[id].binding.session in Reap(v, now, fails).fences <==> !Ends(v, v.attempts[id], now, fails)
  {
    assert AttemptSound(v, id);
    var ending := EndingIds(v, now, fails);
    if id !in ending {
      forall j | j in ending ensures v.attempts[j].binding.session != v.attempts[id].binding.session {
        OthersKeepTheirSessions(v, id, j);
      }
    }
  }

  lemma ReapedAttemptSound(v: Verifier, now: nat, fails: set<Id>, id: Id)
    requires Fencing(v) && now != 0 && id in v.attempts
    ensures AttemptSound(Reap(v, now, fails), id)
  {
    assert AttemptSound(v, id);
    if Active(v.attempts[id]) {
      ReapedFence(v, now, fails, id);
    }
  }

  lemma ReapedFenceSound(v: Verifier, now: nat, fails: set<Id>, s: Session)
    requires Fencing(v) && now != 0 && s in Reap(v, now, fails).fences
    ensures FenceSound(Reap(v, now, fails), s)
  {
    assert FenceSound(v, s);
    ReapedFence(v, now, fails, v.fences[s]);
  }

  lemma ReapKeepsFencing(v: Verifier, now: nat, fails: set<Id>)
    requires Fencing(v)
    ensures Fencing(Reap(v, now, fails))
  {
    if now != 0 {
      var n := Reap(v, now, fails);
      ShrinkingKeeps(v, n);
      forall i | i in n.attempts ensures AttemptSound(n, i) {
        ReapedAttemptSound(v, now, fails, i);
      }
      forall s | s in n.fences ensures FenceSound(n, s) {
        ReapedFenceSound(v, now, fails, s);
      }
    }
  }

  /** After a prune every attempt left still holds its fence. */
  lemma PruneKeepsFencing(v: Verifier, now: nat)
    requires Fencing(v)
    ensures Fencing(PruneRetained(v, now))
    ensures |PruneRetained(v, now).attempts| <= |PruneRetained(v, now).fences|
  {
    var n := PruneRetained(v, now);
    ShrinkingKeeps(v, n);
    forall i | i in n.attempts ensures AttemptSound(n, i) && Active(n.attempts[i]) {
      assert AttemptSound(v, i);
    }
    forall s | s in n.fences ensures FenceSound(n, s) {
      assert FenceSound(v, s);
    }
    FencedAttemptsCounted(n);
  }

  lemma FencedAttemptsCounted(v: Verifier)
    requires forall id | id in v.attempts :: AttemptSound(v, id) && Active(v.attempts[id])
    ensures |v.attempts| <= |v.fences|
  {
    var sessions := set id | id in v.attempts :: v.attempts[id].binding.session;
    InjectiveImage(v, v.attempts.Keys);
    assert sessions == SessionsOf(v, v.attempts.Keys);
    assert sessions <= v.fences.Keys;
    SubsetCard(sessions, v.fences.Keys);
    assert |v.attempts.Keys| == |v.attempts| && |v.fences.Keys| == |v.fences|;
  }

  lemma {:induction false} InjectiveImage(v: Verifier, ids: set<Id>)
    requires ids <= v.attempts.Keys
    requires forall id | id in v.attempts :: AttemptSound(v, id) && Active(v.attempts[id])
    ensures |SessionsOf(v, ids)| == |ids|
    decreases ids
  {
    if ids == {} {
      assert SessionsOf(v, ids) == {};
    } else {
      var id :| id in ids;
      var rest := ids - {id};
      InjectiveImage(v, rest);
      var session := v.attempts[id].binding.session;
      assert AttemptSound(v, id);
      assert session !in SessionsOf(v, rest) by {
        forall other | other in rest ensures v.attempts[other].binding.session != session {
          assert AttemptSound(v, other);
        }
      }
      assert SessionsOf(v, ids) == SessionsOf(v, rest) + {session};
    }
  }

  lemma InsertKeepsFencing(v: Verifier, id: Id, attempt: Attempt)
    requires Fencing(v) && attempt.binding.session !in v.fences && Active(attempt)
    requires |v.fences| < MAX_ACTIVE_BOOTSTRAPS && |v.attempts| < MAX_ACTIVE_BOOTSTRAPS
    requires forall i | i in v.attempts :: i != id && v.attempts[i].workspace != attempt.workspace
    requires AttemptSound(v.(attempts := v.attempts[id := attempt], fences := v.fences[attempt.binding.session := id]), id)
    ensures Fencing(v.(attempts := v.attempts[id := attempt], fences := v.fences[attempt.binding.session := id]))
  {
    var n := v.(attempts := v.attempts[id := attempt], fences := v.fences[attempt.binding.session := id]);
    assert |n.attempts| == |v.attempts| + 1 && |n.fences| == |v.fences| + 1;
    forall i | i in n.attempts ensures AttemptSound(n, i) {
      assert i != id ==> AttemptSound(v, i);
    }
    forall i, j | i in n.attempts && j in n.attempts && i != j ensures Apart(n, i, j) {
      assert i != id && j != id ==> Apart(v, i, j);
    }
    forall s | s in n.fences ensures FenceSound(n, s) {
      assert s != attempt.binding.session ==> FenceSound(v, s);
    }
  }

  lemma OpenKeepsFencing(v: Verifier, peer: Peer, binding: Binding, code: Code, now: nat, faults: Faults)
    requires Fencing(v) && binding.session !in v.fences && |v.fences| < MAX_ACTIVE_BOOTSTRAPS
    requires |v.attempts| < MAX_ACTIVE_BOOTSTRAPS
    ensures Fencing(Open(v, peer, binding, code, now, faults).0)
  {
    var (n, result) := Open(v, peer, binding, code, now, faults);
    if result.Err? {
      WorkspacesAreNotFencing(v, n);
    } else {
      var counted := v.(nextCounter := n.nextCounter, nextWorkspace := n.nextWorkspace, workspaces := n.workspaces);
      WorkspacesAreNotFencing(v, counted);
      forall i | i in v.attempts ensures i != v.nextCounter && v.attempts[i].workspace != v.nextWorkspace {
        assert AttemptSound(v, i);
      }
      InsertKeepsFencing(counted, v.nextCounter, n.attempts[v.nextCounter]);
    }
  }

  lemma SweptKeepsFencing(v: Verifier, now: nat, fails: set<Id>)
    requires Fencing(v)
    ensures Fencing(Swept(v, now, fails))
    ensures |Swept(v, now, fails).attempts| <= |Swept(v, now, fails).fences|
  {
    ReapKeepsFencing(v, now, fails);
    PruneKeepsFencing(Reap(v, now, fails), now);
  }

  lemma BeginKeepsFencing(swept: Verifier, peer: Peer, binding: Binding, code: Code, now: nat, faults: Faults)
    requires Fencing(swept) && |swept.attempts| <= |swept.fences|
    ensures Fencing(Begin(swept, peer, binding, code, now, faults).0)
  {
    var ready := swept.(starts := Prune(swept.starts, now));
    WorkspacesAreNotFencing(swept, ready);
    if Refusal(ready, peer, binding.session).None? {
      var passed := ready.(starts := Record(ready.starts, peer, now));
      WorkspacesAreNotFencing(swept, passed);
      OpenKeepsFencing(passed, peer, binding, code, now, faults);
    }
  }

  lemma StartKeepsFencing(v: Verifier, peer: Peer, binding: Binding, code: Code, now: nat, faults: Faults)
    requires Fencing(v)
    ensures Fencing(Start(v, peer, binding, code, now, faults).0)
  {
    if now != 0 {
      SweptKeepsFencing(v, now, faults.closes);
      BeginKeepsFencing(Swept(v, now, faults.closes), peer, binding, code, now, faults);
    }
  }

  /** The 256-record retention check of a start can never fire. */
  lemma RetentionCheckNeverFires(v: Verifier, now: nat, fails: set<Id>)
    requires Fencing(v)
    ensures |Swept(v, now, fails).attempts| <= MAX_ACTIVE_BOOTSTRAPS < MAX_RETAINED_BOOTSTRAPS
  {
    SweptKeepsFencing(v, now, fails);
  }

  function Serials(v: Verifier, nextSerial: nat, issuedCount: nat): Verifier {
    v.(nextSerial := nextSerial, issuedCount := issuedCount)
  }

  /** Issuing changes one attempt, to issued or to rejected, beside the issuer's counters. */
  lemma IssueForShape(v: Verifier, id: Id, now: nat, fails: bool)
    requires id in v.attempts
    ensures var (after, result) := IssueFor(v, id, now, fails);
      var serials := Serials(v, after.nextSerial, after.issuedCount);
      if result.Ok? then
        && v.nextSerial < after.nextSerial
        && now + CERTIFICATE_TTL <= U64_MAX
        && result.value == Metadata(v.attempts[id].approval, v.attempts[id].binding, v.nextSerial, now + CERTIFICATE_TTL)
        && after == serials.(attempts := v.attempts[id := v.attempts[id].(
                      code := None, issued := Some(result.value), issuedAt := Some(now), phase := Issued)])
      else after == MarkTerminal(serials, id, Rejected) && v.nextSerial <= after.nextSerial
  {
  }

  lemma IssueForKeepsFencing(v: Verifier, id: Id, now: nat, fails: bool)
    requires Fencing(v) && id in v.attempts && v.attempts[id].phase == AwaitingCode
    ensures Fencing(IssueFor(v, id, now, fails).0)
  {
    assert AttemptSound(v, id);
    IssueForShape(v, id, now, fails);
    var (after, result) := IssueFor(v, id, now, fails);
    var serials := Serials(v, after.nextSerial, after.issuedCount);
    WorkspacesAreNotFencing(v, serials);
    if result.Ok? {
      UpdateKeepsFencing(serials, id, after.attempts[id]);
    } else {
      MarkTerminalKeepsFencing(serials, id, Rejected);
    }
  }

  lemma FailCodeKeepsFencing(v: Verifier, id: Id, fails: set<Id>)
    requires Fencing(v) && id in v.attempts && v.attempts[id].phase == AwaitingCode
    ensures Fencing(FailCode(v, id, fails).0)
  {
    assert AttemptSound(v, id);
    var attempt := v.attempts[id].(failures := v.attempts[id].failures + 1);
    UpdateKeepsFencing(v, id, attempt);
    CloseThenEndKeepsFencing(v.(attempts := v.attempts[id := attempt]), id, Rejected, fails);
  }

  lemma SubmitKeepsFencing(v: Verifier, id: Id, challenge: Id, code: Option<Code>, now: nat, fails: set<Id>, issueFails: bool)
    requires Fencing(v)
    ensures Fencing(Submit(v, id, challenge, code, now, fails, issueFails).0)
  {
    if SubmitRefusal(v, id, challenge, code).None? {
      var attempt := v.attempts[id];
      assert AttemptSound(v, id);
      if TooLate(attempt, now) {
        CloseThenEndKeepsFencing(v, id, Elapsed, fails);
      } else if attempt.code != code {
        FailCodeKeepsFencing(v, id, fails);
      } else if !CloseSucceeds(v, attempt.workspace, fails) {
        UpdateKeepsFencing(v, id, attempt.(phase := Cleaning));
      } else {
        CloseKeepsFencing(v, attempt.workspace, fails);
        IssueForKeepsFencing(Close(v, attempt.workspace, fails), id, now, issueFails);
      }
    }
  }

  lemma RetryCleanupKeepsFencing(v: Verifier, id: Id, fails: set<Id>)
    requires Fencing(v)
    ensures Fencing(RetryCleanup(v, id, fails).0)
  {
    if id in v.attempts && v.attempts[id].phase == Cleaning {
      var closed := Close(v, v.attempts[id].workspace, fails);
      CloseKeepsFencing(v, v.attempts[id].workspace, fails);
      MarkTerminalKeepsFencing(closed, id, Rejected);
    }
  }

  lemma RetryOrphanKeepsFencing(v: Verifier, session: Session, chosen: Id, fails: set<Id>)
    requires Fencing(v) && (HasSession(v, session) ==> chosen in v.workspaces && v.workspaces[chosen] == session)
    ensures Fencing(RetryOrphan(v, session, chosen, fails).0)
  {
    CloseKeepsFencing(v, chosen, fails);
  }

  lemma RecoveryOfKeepsFencing(v: Verifier, id: Id, now: nat)
    requires Fencing(v) && id in v.attempts
    ensures Fencing(RecoveryOf(v, id, now).0)
    ensures RecoveryOf(v, id, now).1 != Err(Overflow) && RecoveryOf(v, id, now).1 != Err(InvalidState)
  {
    assert AttemptSound(v, id);
    if v.attempts[id].phase == Issued {
      MarkTerminalKeepsFencing(v, id, Elapsed);
    }
  }

  /** Reconciliation never overflows and never meets an issued attempt without its metadata. */
  lemma ReconcileKeepsFencing(v: Verifier, approval: Id, binding: Binding, now: nat, fails: set<Id>)
    requires Fencing(v)
    ensures Fencing(Reconcile(v, approval, binding, now, fails).0)
    ensures Reconcile(v, approval, binding, now, fails).1 != Err(Overflow)
    ensures Reconcile(v, approval, binding, now, fails).1 != Err(InvalidState)
  {
    var found := FindApproval(v, approval);
    if found.Some? {
      var id := found.value;
      var attempt := v.attempts[id];
      RecoveryOfKeepsFencing(v, id, now);
      if attempt.phase == AwaitingCode {
        CloseThenEndKeepsFencing(v, id, Elapsed, fails);
        RecoveryOfKeepsFencing(CloseThenEnd(v, id, Elapsed, fails).0, id, now);
      }
    }
  }

  lemma StepKeepsFencing(w: World, op: Op)
    requires Fencing(w.v)
    ensures Fencing(Step(w, op).0.v)
  {
    match op
    case OpStart(peer, binding, secret, now, faults) => StartKeepsFencing(w.v, peer, binding, secret, now, faults);
    case OpSubmit(id, challenge, code, now, fails, issueFails) => SubmitKeepsFencing(w.v, id, challenge, code, now, fails, issueFails);
    case OpRetryCleanup(id, fails) => RetryCleanupKeepsFencing(w.v, id, fails);
    case OpRetryOrphan(session, chosen, fails) =>
      if ChoosesWorkspace(w.v, op) { RetryOrphanKeepsFencing(w.v, session, chosen, fails); }
    case OpReconcile(approval, binding, now, fails) => ReconcileKeepsFencing(w.v, approval, binding, now, fails);
    case OpReconcileWire(approval, coreBinding, session, now, fails) =>
      var found := FindApproval(w.v, approval);
      if found.Some? {
        ReconcileKeepsFencing(w.v, approval, w.v.attempts[found.value].binding, now, fails);
      }
    case OpReap(now, fails) => ReapKeepsFencing(w.v, now, fails);
  }

  /**
   * In every run, whatever fails and however the orphan retry is used: a session is fenced exactly
   * when one of its attempts has not ended, by that attempt, and no more than eight attempts are kept.
   */
  lemma {:induction false} RunKeepsFencing(w: World, ops: seq<Op>)
    requires Fencing(w.v)
    ensures Fencing(Run(w, ops).v)
    decreases |ops|
  {
    if ops != [] {
      StepKeepsFencing(w, ops[0]);
      RunKeepsFencing(Step(w, ops[0]).0, ops[1..]);
    }
  }
}
