/** Who owns the hidden workspaces of the bootstrap verifier, over whole runs. */
module BootstrapVerifierWorkspaces {
  import opened Common
  import opened Sessions
  import opened StartLimiter
  import opened BootstrapVerifier
  import opened BootstrapVerifierRuns

  /** An attempt that still needs its workspace has it. */
  predicate Housed(v: Verifier, id: Id)
    requires id in v.attempts
  {
    var a := v.attempts[id];
    Pendable(a) ==> a.workspace in v.workspaces && v.workspaces[a.workspace] == a.binding.session
  }

  /** A workspace of a fenced session belongs to the fence's attempt; any other is an orphan of an unfenced session. */
  predicate Owned(v: Verifier, w: Id)
    requires w in v.workspaces
  {
    var s := v.workspaces[w];
    && w < v.nextWorkspace
    && (s in v.fences ==>
          v.fences[s] in v.attempts && Pendable(v.attempts[v.fences[s]]) && v.attempts[v.fences[s]].workspace == w)
  }

  predicate Separate(v: Verifier, u: Id, w: Id)
    requires u in v.workspaces && w in v.workspaces
  {
    v.workspaces[u] != v.workspaces[w]
  }

  predicate Housing(v: Verifier) {
    && (forall id {:trigger Housed(v, id)} | id in v.attempts :: Housed(v, id))
    && (forall w {:trigger Owned(v, w)} | w in v.workspaces :: Owned(v, w))
    && (forall u, w {:trigger Separate(v, u, w)} | u in v.workspaces && w in v.workspaces && u != w :: Separate(v, u, w))
  }

  lemma FewerStaySeparate(v: Verifier, n: Verifier)
    requires Housing(v) && n.workspaces.Keys <= v.workspaces.Keys
    requires forall w | w in n.workspaces :: n.workspaces[w] == v.workspaces[w]
    ensures forall u, w {:trigger Separate(n, u, w)} | u in n.workspaces && w in n.workspaces && u != w :: Separate(n, u, w)
  {
    forall u, w | u in n.workspaces && w in n.workspaces && u != w ensures Separate(n, u, w) {
      assert Separate(v, u, w);
    }
  }

  /** The workspace leaves together with its attempt's need for it; the session's fence may go or stay. */
  predicate Evicts(v: Verifier, id: Id, attempt: Attempt, n: Verifier) {
    && id in v.attempts && Pendable(v.attempts[id]) && !Pendable(attempt)
    && n.attempts == v.attempts[id := attempt]
    && (n.fences == v.fences || n.fences == v.fences - {v.attempts[id].binding.session})
    && n.workspaces == v.workspaces - {v.attempts[id].workspace}
    && n.nextWorkspace == v.nextWorkspace
  }

  lemma EvictionKeepsHoused(v: Verifier, id: Id, attempt: Attempt, n: Verifier, other: Id)
    requires Fencing(v) && Evicts(v, id, attempt, n) && other in n.attempts && other != id && Housed(v, other)
    ensures Housed(n, other)
  {
    if Pendable(v.attempts[other]) {
      assert Apart(v, other, id);
    }
  }

  lemma EvictionKeepsOwned(v: Verifier, id: Id, attempt: Attempt, n: Verifier, w: Id)
    requires Fencing(v) && Evicts(v, id, attempt, n) && Housed(v, id)
    requires w in n.workspaces && Owned(v, w) && Separate(v, w, v.attempts[id].workspace)
    ensures Owned(n, w)
  {
    assert AttemptSound(v, id);
    assert w in v.workspaces && n.workspaces[w] == v.workspaces[w];
  }

  lemma EvictionKeepsHousing(v: Verifier, id: Id, attempt: Attempt, n: Verifier)
    requires Fencing(v) && Housing(v) && Evicts(v, id, attempt, n)
    ensures Housing(n)
  {
    assert Housed(v, id);
    FewerStaySeparate(v, n);
    forall i | i in n.attempts ensures Housed(n, i) {
      if i != id {
        assert Housed(v, i);
        EvictionKeepsHoused(v, id, attempt, n, i);
      }
    }
    forall w | w in n.workspaces ensures Owned(n, w) {
      assert Owned(v, w) && Separate(v, w, v.attempts[id].workspace);
      EvictionKeepsOwned(v, id, attempt, n, w);
    }
  }

  /** A change that keeps who is pending, where, and every fence but those of sessions without a workspace. */
  lemma RelabelKeepsHousing(v: Verifier, n: Verifier)
    requires Housing(v) && n.workspaces == v.workspaces && v.nextWorkspace <= n.nextWorkspace
    requires forall id | id in n.attempts && Pendable(n.attempts[id]) ::
      id in v.attempts && Pendable(v.attempts[id])
      && n.attempts[id].workspace == v.attempts[id].workspace && n.attempts[id].binding == v.attempts[id].binding
    requires forall s | s in n.fences :: s in v.fences && n.fences[s] == v.fences[s]
    requires forall id | id in v.attempts && Pendable(v.attempts[id]) ::
      id in n.attempts && Pendable(n.attempts[id]) && n.attempts[id].workspace == v.attempts[id].workspace
    ensures Housing(n)
  {
    FewerStaySeparate(v, n);
    forall i | i in n.attempts ensures Housed(n, i) {
      if Pendable(n.attempts[i]) { assert Housed(v, i); }
    }
    forall w | w in n.workspaces ensures Owned(n, w) {
      assert Owned(v, w);
    }
  }

  lemma CloseThenEndKeepsHousing(v: Verifier, id: Id, phase: Phase, fails: set<Id>)
    requires Fencing(v) && Housing(v) && id in v.attempts && Pendable(v.attempts[id]) && (phase == Rejected || phase == Elapsed)
    ensures Housing(CloseThenEnd(v, id, phase, fails).0)
  {
    var n := CloseThenEnd(v, id, phase, fails).0;
    if CloseSucceeds(v, v.attempts[id].workspace, fails) {
      EvictionKeepsHousing(v, id, n.attempts[id], n);
    } else {
      RelabelKeepsHousing(v, n);
    }
  }

  lemma ReapKeepsHousing(v: Verifier, now: nat, fails: set<Id>)
    requires Fencing(v) && Housing(v)
    ensures Housing(Reap(v, now, fails))
  {
    if now != 0 {
      var n := Reap(v, now, fails);
      FewerStaySeparate(v, n);
      forall i | i in n.attempts ensures Housed(n, i) {
        ReapKeepsHoused(v, now, fails, i);
      }
      forall w | w in n.workspaces ensures Owned(n, w) {
        ReapKeepsOwned(v, now, fails, w);
      }
    }
  }

  lemma ReapKeepsHoused(v: Verifier, now: nat, fails: set<Id>, id: Id)
    requires Fencing(v) && Housing(v) && now != 0 && id in v.attempts
    ensures Housed(Reap(v, now, fails), id)
  {
    assert Housed(v, id);
    if Pendable(v.attempts[id]) && !Ends(v, v.attempts[id], now, fails) {
      forall j | j in EndingIds(v, now, fails) ensures v.attempts[j].workspace != v.attempts[id].workspace {
        assert Apart(v, j, id);
      }
    }
  }

  lemma ReapKeepsOwned(v: Verifier, now: nat, fails: set<Id>, w: Id)
    requires Fencing(v) && Housing(v) && now != 0 && w in Reap(v, now, fails).workspaces
    ensures Owned(Reap(v, now, fails), w)
  {
    assert Owned(v, w);
    var s := v.workspaces[w];
    if s in v.fences {
      var id := v.fences[s];
      assert id !in EndingIds(v, now, fails);
    }
  }

  lemma PruneKeepsHousing(v: Verifier, now: nat)
    requires Fencing(v) && Housing(v)
    ensures Housing(PruneRetained(v, now))
  {
    RelabelKeepsHousing(v, PruneRetained(v, now));
  }

  lemma SweptKeepsHousing(v: Verifier, now: nat, fails: set<Id>)
    requires Fencing(v) && Housing(v)
    ensures Housing(Swept(v, now, fails))
  {
    ReapKeepsHousing(v, now, fails);
    ReapKeepsFencing(v, now, fails);
    PruneKeepsHousing(Reap(v, now, fails), now);
  }

  lemma AttemptIdsAreFresh(v: Verifier)
    requires Fencing(v)
    ensures v.nextCounter !in v.attempts
  {
    forall i | i in v.attempts ensures i != v.nextCounter {
      assert AttemptSound(v, i);
    }
  }

  lemma WorkspaceIdsAreFresh(v: Verifier)
    requires Housing(v)
    ensures v.nextWorkspace !in v.workspaces
  {
    forall w | w in v.workspaces ensures w != v.nextWorkspace {
      assert Owned(v, w);
    }
  }

  /** A new workspace goes to a session without one, fenced by its new attempt or by nobody. */
  lemma TenancyKeepsHousing(v: Verifier, n: Verifier, session: Session)
    requires Fencing(v) && Housing(v) && session !in v.fences && !HasSession(v, session)
    requires n.workspaces == v.workspaces[v.nextWorkspace := session] && n.nextWorkspace == v.nextWorkspace + 1
    requires || (n.attempts == v.attempts && n.fences == v.fences)
             || (&& v.nextCounter in n.attempts && v.nextCounter !in v.attempts
                 && n.attempts == v.attempts[v.nextCounter := n.attempts[v.nextCounter]]
                 && n.fences == v.fences[session := v.nextCounter]
                 && Pendable(n.attempts[v.nextCounter]) && n.attempts[v.nextCounter].workspace == v.nextWorkspace
                 && n.attempts[v.nextCounter].binding.session == session)
    ensures Housing(n)
  {
    WorkspaceIdsAreFresh(v);
    forall i | i in n.attempts ensures Housed(n, i) {
      if i in v.attempts && n.attempts[i] == v.attempts[i] { assert Housed(v, i) && AttemptSound(v, i); }
    }
    forall w | w in n.workspaces ensures Owned(n, w) {
      if w in v.workspaces { assert Owned(v, w); }
    }
    forall u, w | u in n.workspaces && w in n.workspaces && u != w ensures Separate(n, u, w) {
      if u in v.workspaces && w in v.workspaces { assert Separate(v, u, w); }
    }
  }

  /** Opening creates nothing, only a workspace, or a workspace with the attempt that owns it. */
  lemma OpenShape(v: Verifier, peer: Peer, binding: Binding, code: Code, now: nat, faults: Faults)
    requires v.nextWorkspace !in v.workspaces
    ensures var n, owner := Open(v, peer, binding, code, now, faults).0,
                            FreshAttempt(peer, binding, v.nextCounter, v.nextWorkspace, code, now);
      && v.nextWorkspace <= n.nextWorkspace <= v.nextWorkspace + 1
      && ((n.attempts == v.attempts && n.fences == v.fences)
          || (n.attempts == v.attempts[v.nextCounter := owner] && n.fences == v.fences[binding.session := v.nextCounter]
              && n.workspaces != v.workspaces))
      && (n.workspaces == v.workspaces
          || (n.workspaces == v.workspaces[v.nextWorkspace := binding.session] && n.nextWorkspace == v.nextWorkspace + 1))
  {
    var created := v.workspaces[v.nextWorkspace := binding.session];
    assert created - {v.nextWorkspace} == v.workspaces;
    assert v.nextWorkspace in created;
  }

  lemma OpenKeepsHousing(v: Verifier, peer: Peer, binding: Binding, code: Code, now: nat, faults: Faults)
    requires Fencing(v) && Housing(v) && binding.session !in v.fences && !HasSession(v, binding.session)
    ensures Housing(Open(v, peer, binding, code, now, faults).0)
  {
    var n := Open(v, peer, binding, code, now, faults).0;
    AttemptIdsAreFresh(v);
    WorkspaceIdsAreFresh(v);
    OpenShape(v, peer, binding, code, now, faults);
    if n.workspaces == v.workspaces {
      RelabelKeepsHousing(v, n);
    } else {
      TenancyKeepsHousing(v, n, binding.session);
    }
  }

  lemma BeginKeepsHousing(swept: Verifier, peer: Peer, binding: Binding, code: Code, now: nat, faults: Faults)
    requires Fencing(swept) && Housing(swept)
    ensures Housing(Begin(swept, peer, binding, code, now, faults).0)
  {
    var ready := swept.(starts := Prune(swept.starts, now));
    RelabelKeepsHousing(swept, ready);
    if Refusal(ready, peer, binding.session).None? {
      var passed := ready.(starts := Record(ready.starts, peer, now));
      RelabelKeepsHousing(swept, passed);
      WorkspacesAreNotFencing(swept, passed);
      OpenKeepsHousing(passed, peer, binding, code, now, faults);
    }
  }

  lemma FailCodeKeepsHousing(v: Verifier, id: Id, fails: set<Id>)
    requires Fencing(v) && Housing(v) && id in v.attempts && v.attempts[id].phase == AwaitingCode
    ensures Housing(FailCode(v, id, fails).0)
  {
    assert AttemptSound(v, id);
    var attempt := v.attempts[id].(failures := v.attempts[id].failures + 1);
    var counted := v.(attempts := v.attempts[id := attempt]);
    UpdateKeepsFencing(v, id, attempt);
    RelabelKeepsHousing(v, counted);
    CloseThenEndKeepsHousing(counted, id, Rejected, fails);
  }

  lemma IssueForKeepsHousing(v: Verifier, id: Id, now: nat, fails: set<Id>, issueFails: bool)
    requires Fencing(v) && Housing(v) && id in v.attempts && v.attempts[id].phase == AwaitingCode
    requires CloseSucceeds(v, v.attempts[id].workspace, fails)
    ensures Housing(IssueFor(Close(v, v.attempts[id].workspace, fails), id, now, issueFails).0)
  {
    var closed := Close(v, v.attempts[id].workspace, fails);
    var n := IssueFor(closed, id, now, issueFails).0;
    IssueForShape(closed, id, now, issueFails);
    EvictionKeepsHousing(v, id, n.attempts[id], n);
  }

  lemma SubmitKeepsHousing(v: Verifier, op: Op)
    requires Fencing(v) && Housing(v) && op.OpSubmit?
    ensures Housing(Submit(v, op.id, op.challenge, op.code, op.now, op.fails, op.issueFails).0)
  {
    if SubmitRefusal(v, op.id, op.challenge, op.code).None? {
      var attempt := v.attempts[op.id];
      assert AttemptSound(v, op.id);
      if TooLate(attempt, op.now) {
        CloseThenEndKeepsHousing(v, op.id, Elapsed, op.fails);
      } else if attempt.code != op.code {
        FailCodeKeepsHousing(v, op.id, op.fails);
      } else if CloseSucceeds(v, attempt.workspace, op.fails) {
        IssueForKeepsHousing(v, op.id, op.now, op.fails, op.issueFails);
      } else {
        RelabelKeepsHousing(v, MarkCleaning(v, op.id));
      }
    }
  }

  lemma RetryCleanupKeepsHousing(v: Verifier, id: Id, fails: set<Id>)
    requires Fencing(v) && Housing(v)
    ensures Housing(RetryCleanup(v, id, fails).0)
  {
    if id in v.attempts && v.attempts[id].phase == Cleaning {
      CloseThenEndKeepsHousing(v, id, Rejected, fails);
    }
  }

  /**
   * The orphan retry does not look at fences: it keeps every pending attempt housed exactly when it
   * does not close a workspace of a fenced session.
   */
  lemma RetryOrphanKeepsHousingExactlyWhenUnfenced(v: Verifier, session: Session, chosen: Id, fails: set<Id>)
    requires Fencing(v) && Housing(v) && (HasSession(v, session) ==> chosen in v.workspaces && v.workspaces[chosen] == session)
    ensures var (n, result) := RetryOrphan(v, session, chosen, fails);
      Housing(n) <==> result.Err? || session !in v.fences
  {
    var (n, result) := RetryOrphan(v, session, chosen, fails);
    if result.Ok? {
      assert Owned(v, chosen);
      if session in v.fences {
        assert FenceSound(v, session);
        assert !Housed(n, v.fences[session]);
      } else {
        UnfencedCloseKeepsHousing(v, chosen, n);
      }
    }
  }

  lemma UnfencedCloseKeepsHousing(v: Verifier, chosen: Id, n: Verifier)
    requires Fencing(v) && Housing(v) && chosen in v.workspaces && v.workspaces[chosen] !in v.fences
    requires n == v.(workspaces := v.workspaces - {chosen})
    ensures Housing(n)
  {
    FewerStaySeparate(v, n);
    forall i | i in n.attempts ensures Housed(n, i) {
      assert Housed(v, i) && AttemptSound(v, i);
    }
    forall w | w in n.workspaces ensures Owned(n, w) {
      assert Owned(v, w);
    }
  }

  lemma RecoveryOfKeepsHousing(v: Verifier, id: Id, now: nat)
    requires Fencing(v) && Housing(v) && id in v.attempts
    ensures Housing(RecoveryOf(v, id, now).0)
  {
    assert AttemptSound(v, id);
    RelabelKeepsHousing(v, RecoveryOf(v, id, now).0);
  }

  lemma ReconcileKeepsHousing(v: Verifier, approval: Id, binding: Binding, now: nat, fails: set<Id>)
    requires Fencing(v) && Housing(v)
    ensures Housing(Reconcile(v, approval, binding, now, fails).0)
  {
    var found := FindApproval(v, approval);
    if found.Some? {
      var id := found.value;
      RecoveryOfKeepsHousing(v, id, now);
      if v.attempts[id].phase == AwaitingCode {
        CloseThenEndKeepsHousing(v, id, Elapsed, fails);
        CloseThenEndKeepsFencing(v, id, Elapsed, fails);
        RecoveryOfKeepsHousing(CloseThenEnd(v, id, Elapsed, fails).0, id, now);
      }
    }
  }

  /** The documented use of the orphan retry: only for a session without a live attempt. */
  predicate Orderly(v: Verifier, op: Op) {
    op.OpRetryOrphan? ==> op.session !in v.fences
  }

  ghost predicate AllOrderly(w: World, ops: seq<Op>)
    decreases |ops|
  {
    ops == [] || (Orderly(w.v, ops[0]) && AllOrderly(Step(w, ops[0]).0, ops[1..]))
  }

  lemma StepKeepsHousing(w: World, op: Op)
    requires Fencing(w.v) && Housing(w.v) && Orderly(w.v, op)
    ensures Housing(Step(w, op).0.v)
  {
    if op.OpStart? {
      if op.now != 0 {
        SweptKeepsHousing(w.v, op.now, op.faults.closes);
        SweptKeepsFencing(w.v, op.now, op.faults.closes);
        BeginKeepsHousing(Swept(w.v, op.now, op.faults.closes), op.peer, op.binding, op.secret, op.now, op.faults);
      }
    } else if op.OpSubmit? {
      SubmitKeepsHousing(w.v, op);
    } else if op.OpReap? {
      ReapKeepsHousing(w.v, op.now, op.fails);
    } else {
      RetriesAndReconcilesKeepHousing(w, op);
    }
  }

  lemma RetriesAndReconcilesKeepHousing(w: World, op: Op)
    requires Fencing(w.v) && Housing(w.v) && Orderly(w.v, op) && !op.OpStart? && !op.OpSubmit? && !op.OpReap?
    ensures Housing(Step(w, op).0.v)
  {
    if op.OpRetryCleanup? {
      RetryCleanupKeepsHousing(w.v, op.id, op.fails);
    } else if op.OpRetryOrphan? {
      if ChoosesWorkspace(w.v, op) { RetryOrphanKeepsHousingExactlyWhenUnfenced(w.v, op.session, op.chosen, op.fails); }
    } else if op.OpReconcile? {
      ReconcileKeepsHousing(w.v, op.approval, op.binding, op.now, op.fails);
    } else {
      var found := FindApproval(w.v, op.approval);
      if found.Some? { ReconcileKeepsHousing(w.v, op.approval, w.v.attempts[found.value].binding, op.now, op.fails); }
    }
  }

  lemma {:induction false} RunKeepsHousing(w: World, ops: seq<Op>)
    requires Fencing(w.v) && Housing(w.v) && AllOrderly(w, ops)
    ensures Fencing(Run(w, ops).v) && Housing(Run(w, ops).v)
    decreases |ops|
  {
    if ops != [] {
      StepKeepsFencing(w, ops[0]);
      StepKeepsHousing(w, ops[0]);
      RunKeepsHousing(Step(w, ops[0]).0, ops[1..]);
    }
  }

  /**
   * In every orderly run each open workspace belongs to exactly one attempt of its session that awaits
   * its code or its cleanup, or is an orphan of an unfenced session; a session has at most one.
   */
  lemma EveryWorkspaceIsOwnedOrOrphaned(ops: seq<Op>, w: Id)
    requires AllOrderly(EMPTY_WORLD, ops) && w in Run(EMPTY_WORLD, ops).v.workspaces
    ensures var v := Run(EMPTY_WORLD, ops).v;
      var session := v.workspaces[w];
      && (session in v.fences <==>
            exists id :: id in v.attempts && Pendable(v.attempts[id]) && v.attempts[id].workspace == w && v.attempts[id].binding.session == session)
      && forall u | u in v.workspaces && v.workspaces[u] == session :: u == w
  {
    RunKeepsHousing(EMPTY_WORLD, ops);
    var v := Run(EMPTY_WORLD, ops).v;
    var session := v.workspaces[w];
    assert Owned(v, w);
    if session in v.fences {
      assert FenceSound(v, session);
    }
    forall id | id in v.attempts && Pendable(v.attempts[id]) && v.attempts[id].binding.session == session
      ensures session in v.fences
    {
      assert AttemptSound(v, id);
    }
    forall u | u in v.workspaces && v.workspaces[u] == session ensures u == w {
      assert u == w || Separate(v, u, w);
    }
  }

  // ---------------------------------------------------------------- misuse of the orphan retry

  /** A fenced attempt that still needs its workspace, which no longer exists. */
  predicate Stranded(v: Verifier, session: Session) {
    && session in v.fences && v.fences[session] in v.attempts
    && var a := v.attempts[v.fences[session]];
       Pendable(a) && a.workspace !in v.workspaces && a.workspace < v.nextWorkspace
  }

  lemma EndingElsewhereKeepsStranded(v: Verifier, session: Session, id: Id, phase: Phase, fails: set<Id>)
    requires Fencing(v) && Stranded(v, session) && id in v.attempts && Pendable(v.attempts[id])
    ensures Stranded(CloseThenEnd(v, id, phase, fails).0, session)
  {
    assert AttemptSound(v, id) && FenceSound(v, session);
  }

  lemma SweepKeepsStranded(v: Verifier, session: Session, now: nat, fails: set<Id>)
    requires Fencing(v) && Stranded(v, session)
    ensures Stranded(Reap(v, now, fails), session) && Stranded(Swept(v, now, fails), session)
  {
    if now != 0 {
      var id := v.fences[session];
      assert FenceSound(v, session);
      ReapedFence(v, now, fails, id);
    }
  }

  lemma BeginKeepsStranded(swept: Verifier, session: Session, peer: Peer, binding: Binding, code: Code, now: nat, faults: Faults)
    requires Fencing(swept) && Stranded(swept, session)
    ensures var (n, result) := Begin(swept, peer, binding, code, now, faults);
      Stranded(n, session) && (binding.session == session ==> result.Err?)
  {
    AttemptIdsAreFresh(swept);
  }

  lemma FailCodeKeepsStranded(v: Verifier, session: Session, id: Id, fails: set<Id>)
    requires Fencing(v) && Stranded(v, session) && id in v.attempts && v.attempts[id].phase == AwaitingCode
    ensures Stranded(FailCode(v, id, fails).0, session)
  {
    var failed := v.attempts[id].(failures := v.attempts[id].failures + 1);
    assert AttemptSound(v, id) && FenceSound(v, session);
    UpdateKeepsFencing(v, id, failed);
    EndingElsewhereKeepsStranded(v.(attempts := v.attempts[id := failed]), session, id, Rejected, fails);
  }

  lemma IssueForKeepsStranded(v: Verifier, session: Session, id: Id, now: nat, fails: set<Id>, issueFails: bool)
    requires Fencing(v) && Stranded(v, session) && id in v.attempts && v.attempts[id].phase == AwaitingCode
    requires CloseSucceeds(v, v.attempts[id].workspace, fails)
    ensures Stranded(IssueFor(Close(v, v.attempts[id].workspace, fails), id, now, issueFails).0, session)
  {
    assert AttemptSound(v, id) && FenceSound(v, session);
    IssueForShape(Close(v, v.attempts[id].workspace, fails), id, now, issueFails);
  }

  lemma SubmitKeepsStranded(v: Verifier, session: Session, op: Op)
    requires Fencing(v) && Stranded(v, session) && op.OpSubmit?
    ensures Stranded(Submit(v, op.id, op.challenge, op.code, op.now, op.fails, op.issueFails).0, session)
  {
    if SubmitRefusal(v, op.id, op.challenge, op.code).None? {
      var attempt := v.attempts[op.id];
      if TooLate(attempt, op.now) {
        EndingElsewhereKeepsStranded(v, session, op.id, Elapsed, op.fails);
      } else if attempt.code.Some? {
        if attempt.code != op.code {
          FailCodeKeepsStranded(v, session, op.id, op.fails);
        } else if CloseSucceeds(v, attempt.workspace, op.fails) {
          IssueForKeepsStranded(v, session, op.id, op.now, op.fails, op.issueFails);
        } else {
          assert FenceSound(v, session);
        }
      }
    }
  }

  lemma ReconcileKeepsStranded(v: Verifier, session: Session, approval: Id, binding: Binding, now: nat, fails: set<Id>)
    requires Fencing(v) && Stranded(v, session)
    ensures Stranded(Reconcile(v, approval, binding, now, fails).0, session)
  {
    var found := FindApproval(v, approval);
    if found.Some? {
      assert AttemptSound(v, found.value) && FenceSound(v, session);
      if Pendable(v.attempts[found.value]) {
        EndingElsewhereKeepsStranded(v, session, found.value, Elapsed, fails);
      }
    }
  }

  lemma RetriesKeepStranded(w: World, session: Session, op: Op)
    requires Fencing(w.v) && Stranded(w.v, session) && (op.OpRetryCleanup? || op.OpRetryOrphan?)
    ensures Stranded(Step(w, op).0.v, session)
  {
    if op.OpRetryCleanup? && op.id in w.v.attempts {
      assert AttemptSound(w.v, op.id) && FenceSound(w.v, session);
    }
  }

  lemma StepKeepsStranded(w: World, session: Session, op: Op)
    requires Fencing(w.v) && Stranded(w.v, session)
    ensures Stranded(Step(w, op).0.v, session)
  {
    if op.OpStart? {
      if op.now != 0 {
        SweepKeepsStranded(w.v, session, op.now, op.faults.closes);
        SweptKeepsFencing(w.v, op.now, op.faults.closes);
        BeginKeepsStranded(Swept(w.v, op.now, op.faults.closes), session, op.peer, op.binding, op.secret, op.now, op.faults);
      }
    } else if op.OpSubmit? {
      SubmitKeepsStranded(w.v, session, op);
    } else if op.OpReap? {
      SweepKeepsStranded(w.v, session, op.now, op.fails);
    } else if op.OpReconcile? {
      ReconcileKeepsStranded(w.v, session, op.approval, op.binding, op.now, op.fails);
    } else if op.OpReconcileWire? {
      var found := FindApproval(w.v, op.approval);
      if found.Some? { ReconcileKeepsStranded(w.v, session, op.approval, w.v.attempts[found.value].binding, op.now, op.fails); }
    } else {
      RetriesKeepStranded(w, session, op);
    }
  }

  lemma {:induction false} RunKeepsStranded(w: World, session: Session, ops: seq<Op>)
    requires Fencing(w.v) && Stranded(w.v, session)
    ensures Fencing(Run(w, ops).v) && Stranded(Run(w, ops).v, session)
    decreases |ops|
  {
    if ops != [] {
      StepKeepsFencing(w, ops[0]);
      StepKeepsStranded(w, session, ops[0]);
      RunKeepsStranded(Step(w, ops[0]).0, session, ops[1..]);
    }
  }

  /**
   * What the precondition protects against: once the orphan retry closes a live attempt's workspace,
   * no operation ever releases the session again, and every later start for it fails.
   */
  lemma ClosingALiveWorkspaceBlocksItsSessionForever(w: World, session: Session, chosen: Id, fails: set<Id>, ops: seq<Op>, start: Op)
    requires Fencing(w.v) && Housing(w.v) && session in w.v.fences && HasSession(w.v, session)
    requires chosen in w.v.workspaces && w.v.workspaces[chosen] == session
    requires RetryOrphan(w.v, session, chosen, fails).1.Ok?
    requires start.OpStart? && start.binding.session == session
    ensures var later := Run(Step(w, OpRetryOrphan(session, chosen, fails)).0, ops);
      && session in later.v.fences
      && Step(later, start).1.started.Err?
  {
    var closed := Step(w, OpRetryOrphan(session, chosen, fails)).0;
    assert Owned(w.v, chosen) && FenceSound(w.v, session);
    StepKeepsFencing(w, OpRetryOrphan(session, chosen, fails));
    RunKeepsStranded(closed, session, ops);
    StartOnStranded(Run(closed, ops), session, start);
  }

  lemma StartOnStranded(w: World, session: Session, start: Op)
    requires Fencing(w.v) && Stranded(w.v, session) && start.OpStart? && start.binding.session == session
    ensures Step(w, start).1.started.Err?
  {
    if start.now != 0 {
      SweepKeepsStranded(w.v, session, start.now, start.faults.closes);
      SweptKeepsFencing(w.v, start.now, start.faults.closes);
      BeginKeepsStranded(Swept(w.v, start.now, start.faults.closes), session, start.peer, start.binding, start.secret, start.now, start.faults);
    }
  }
}
