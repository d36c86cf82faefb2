/** Whole runs of the bootstrap runtime, with crashes and restarts: what every operation keeps. */
module BootstrapRuntimeRuns {
  import opened Common
  import opened Sessions
  import opened StartLimiter
  import opened BootstrapRuntime
  import opened BootstrapRuntimeCodec

  // ---------------------------------------------------------------- the invariant of one process

  predicate IdsBelow(s: State, next: Id) {
    && (forall id | id in s.attempts :: id < next && s.attempts[id].approval < next)
    && (forall id | id in s.core :: id < next)
    && (forall id | id in s.app :: id < next)
  }

  /** No attempt's approval identifier names an approval that already exists. */
  predicate Unissued(s: State) {
    forall id | id in s.attempts :: s.attempts[id].approval !in s.core
  }

  predicate IsTracked(s: State, w: WorkspaceId) {
    || (exists id :: id in s.attempts && s.attempts[id].workspace == w)
    || (exists id :: id in s.app && s.app[id].workspace == w)
    || (exists i :: 0 <= i < |s.orphans| && s.orphans[i].workspace == w)
  }

  /** Every workspace this process created and has not closed is tracked, unless its rollback close failed. */
  predicate TracksOwned(m: Machine) {
    forall w | w in m.owned && w !in m.leaked :: IsTracked(m.state, w)
  }

  predicate KeepsAt(core: map<Id, CoreApproval>, kept: map<Id, CoreApproval>, id: Id)
    requires id in kept
  {
    id in core && core[id] == kept[id] && kept[id].confirmed
  }

  /** Every approval in `kept` is confirmed and present, unchanged. */
  predicate Keeps(core: map<Id, CoreApproval>, kept: map<Id, CoreApproval>) {
    forall id {:trigger KeepsAt(core, kept, id)} | id in kept :: KeepsAt(core, kept, id)
  }

  lemma KeptAreInCore(core: map<Id, CoreApproval>, kept: map<Id, CoreApproval>)
    requires Keeps(core, kept)
    ensures kept.Keys <= core.Keys && forall id | id in kept :: core[id].confirmed
    ensures core == map[] ==> kept == map[]
  {
    forall id | id in kept ensures id in core && core[id].confirmed {
      assert KeepsAt(core, kept, id);
    }
  }

  predicate StateInv(s: State, session: Session, next: Id) {
    Sound(s, session) && IdsBelow(s, next) && Unissued(s)
  }

  ghost predicate WrittenBy(image: Image, s: State, session: Session, next: Id, kept: map<Id, CoreApproval>) {
    Sound(s, session) && IdsBelow(s, next) && Keeps(s.core, kept)
    && image.records == Records(s) && |image.records| <= MAX_APPROVALS
  }

  ghost predicate FileInv(file: Option<Image>, next: Id, kept: map<Id, CoreApproval>) {
    if file.Some? then exists s, session :: WrittenBy(file.value, s, session, next, kept) else kept == map[]
  }

  ghost predicate Inv(m: Machine) {
    && m.nextId > 0 && StateInv(m.state, m.session, m.nextId) && FileInv(m.file, m.nextId, m.kept)
    && TracksOwned(m) && Keeps(m.state.core, m.kept)
  }

  lemma FileInvGrows(file: Option<Image>, next: Id, later: Id, kept: map<Id, CoreApproval>)
    requires FileInv(file, next, kept) && next <= later
    ensures FileInv(file, later, kept)
  {
    if file.Some? {
      var s, session :| WrittenBy(file.value, s, session, next, kept);
      assert WrittenBy(file.value, s, session, later, kept);
    }
  }

  lemma PersistKeepsInv(m: Machine, fault: PersistFault)
    requires Inv(m)
    ensures Inv(PersistMachine(m, fault).0)
    ensures var n := PersistMachine(m, fault).0;
      n == m.(file := n.file)
  {
    var n := PersistMachine(m, fault).0;
    KeptAreInCore(m.state.core, m.kept);
    if n.file.Some? && n.file != m.file {
      assert WrittenBy(n.file.value, m.state, m.session, m.nextId, m.kept);
    }
    assert TracksOwned(n);
  }

  // ---------------------------------------------------------------- replacing the state

  /** The same occupant, with soundness of the parts that changed. */
  lemma EmptiedKeepsInv(m: Machine, n: Machine)
    requires Inv(m) && n.session == m.session && n.file == m.file && n.nextId == m.nextId && n.kept == m.kept
    requires n.state.core == m.state.core
    requires n.state.attempts == map[] && n.state.app == map[] && n.state.active == {} && n.state.orphans == []
    requires forall w | w in n.owned && w !in n.leaked :: w in m.owned && w !in m.leaked && !IsTracked(m.state, w)
    ensures Inv(n)
  {
    forall id | id in n.state.core ensures CoreSound(id, n.state.core[id]) {
      assert CoreSound(id, m.state.core[id]);
    }
  }

  /** The only tracked workspace, when an attempt holds it. */
  lemma AttemptTracks(m: Machine, id: Id)
    requires Inv(m) && id in m.state.attempts
    ensures forall w :: IsTracked(m.state, w) <==> w == m.state.attempts[id].workspace
    ensures m.state.attempts == map[id := m.state.attempts[id]] && m.state.app == map[] && m.state.orphans == []
    ensures m.state.active == {m.session} && m.state.attempts[id].session == m.session
    ensures ValidWorkspace(m.state.attempts[id].workspace)
  {
    AttemptAlone(m.state, id);
    assert AttemptSound(id, m.state.attempts[id], m.session);
  }

  lemma AppTracks(m: Machine, id: Id)
    requires Inv(m) && id in m.state.app
    ensures forall w :: IsTracked(m.state, w) <==> w == m.state.app[id].workspace
    ensures m.state.app == map[id := m.state.app[id]] && m.state.attempts == map[] && m.state.orphans == []
    ensures m.state.active == {m.session} && m.state.app[id].session == m.session
    ensures ValidWorkspace(m.state.app[id].workspace)
  {
    AppAlone(m.state, id);
    assert AppSound(id, m.state.app[id], m.session);
  }

  /** Closing the attempt's workspace and dropping the attempt leaves nothing tracked and no session active. */
  lemma DropAttemptKeepsInv(m: Machine, id: Id)
    requires Inv(m) && id in m.state.attempts
    ensures var n := DropAttempt(Forget(m, m.state.attempts[id].workspace), id);
      Inv(n) && n.state == m.state.(attempts := map[], active := {}) && !Occupied(n.state) && n.state.orphans == []
  {
    AttemptTracks(m, id);
    var n := DropAttempt(Forget(m, m.state.attempts[id].workspace), id);
    assert n.state.attempts == map[];
    EmptiedKeepsInv(m, n);
  }

  lemma DropAppKeepsInv(m: Machine, id: Id)
    requires Inv(m) && id in m.state.app
    ensures var n := DropApp(Forget(m, m.state.app[id].workspace), id);
      Inv(n) && n.state == m.state.(app := map[], active := {}) && !Occupied(n.state) && n.state.orphans == []
  {
    AppTracks(m, id);
    var n := DropApp(Forget(m, m.state.app[id].workspace), id);
    assert n.state.app == map[];
    EmptiedKeepsInv(m, n);
  }

  /** What failed to close is kept as the one orphan. */
  lemma OrphanedKeepsInv(m: Machine, n: Machine, orphan: Orphan)
    requires Inv(m) && n == m.(state := n.state)
    requires n.state.core == m.state.core
    requires n.state.attempts == map[] && n.state.app == map[] && n.state.active == {} && n.state.orphans == [orphan]
    requires ValidWorkspace(orphan.workspace)
    requires forall w :: IsTracked(m.state, w) ==> w == orphan.workspace
    ensures Inv(n)
  {
    forall id | id in n.state.core ensures CoreSound(id, n.state.core[id]) {
      assert CoreSound(id, m.state.core[id]);
    }
    forall w | w in n.owned && w !in n.leaked ensures IsTracked(n.state, w) {
      assert IsTracked(m.state, w);
      assert n.state.orphans[0].workspace == w;
    }
  }

  lemma AbortKeepsInv(m: Machine, id: Id, faults: Faults)
    requires Inv(m)
    ensures Inv(Abort(m, id, faults).0)
  {
    if id in m.state.attempts {
      var a, dropped := m.state.attempts[id], DropAttempt(m, id);
      AttemptTracks(m, id);
      DropAttemptKeepsInv(m, id);
      if CloseSucceeds(a.workspace, faults.closes) {
        assert Forget(dropped, a.workspace) == DropAttempt(Forget(m, a.workspace), id);
        PersistKeepsInv(Forget(dropped, a.workspace), faults.persist);
      } else {
        var kept := dropped.(state := dropped.state.(orphans := dropped.state.orphans + [Orphan(a.session, a.workspace)]));
        assert kept.state.attempts == map[];
        OrphanedKeepsInv(m, kept, Orphan(a.session, a.workspace));
        PersistKeepsInv(kept, faults.persist);
      }
    }
  }

  lemma EndAttemptKeepsInv(m: Machine, id: Id, error: RuntimeError, faults: Faults)
    requires Inv(m) && id in m.state.attempts
    ensures Inv(EndAttempt(m, id, error, faults).0)
  {
    DropAttemptKeepsInv(m, id);
    PersistKeepsInv(DropAttempt(Forget(m, m.state.attempts[id].workspace), id), faults.persist);
  }

  lemma CountedAttemptKeepsInv(m: Machine, id: Id)
    requires Inv(m) && id in m.state.attempts
    ensures var a := m.state.attempts[id].(failures := Counted(m.state.attempts[id].failures));
      Inv(m.(state := m.state.(attempts := m.state.attempts[id := a])))
  {
    AttemptTracks(m, id);
    var a := m.state.attempts[id].(failures := Counted(m.state.attempts[id].failures));
    var n := m.(state := m.state.(attempts := m.state.attempts[id := a]));
    assert AttemptSound(id, m.state.attempts[id], m.session);
    forall w | w in n.owned && w !in n.leaked ensures IsTracked(n.state, w) {
      assert IsTracked(m.state, w);
      assert n.state.attempts[id].workspace == w;
    }
  }

  lemma CountWrongCodeKeepsInv(m: Machine, id: Id, faults: Faults)
    requires Inv(m) && id in m.state.attempts
    ensures Inv(CountWrongCode(m, id, faults).0)
  {
    var a := m.state.attempts[id].(failures := Counted(m.state.attempts[id].failures));
    var counted := m.(state := m.state.(attempts := m.state.attempts[id := a]));
    CountedAttemptKeepsInv(m, id);
    if a.failures >= MAX_CODE_FAILURES {
      EndAttemptKeepsInv(counted, id, CodeRateLimited, faults);
    } else {
      PersistKeepsInv(counted, faults.persist);
    }
  }

  lemma SameOccupantTracked(m: Machine, n: Machine)
    requires TracksOwned(m) && n.owned == m.owned && n.leaked == m.leaked
    requires n.state.attempts == m.state.attempts && n.state.app == m.state.app && n.state.orphans == m.state.orphans
    ensures TracksOwned(n)
  {
    forall w | w in n.owned && w !in n.leaked ensures IsTracked(n.state, w) {
      assert IsTracked(m.state, w);
    }
  }

  lemma ApprovedKeeps(core: map<Id, CoreApproval>, kept: map<Id, CoreApproval>, id: Id, approval: CoreApproval)
    requires Keeps(core, kept) && id !in kept
    ensures Keeps(core[id := approval], kept)
  {
    forall other | other in kept ensures KeepsAt(core[id := approval], kept, other) {
      assert KeepsAt(core, kept, other);
    }
  }

  lemma ApprovedStateSound(s: State, session: Session, next: Id, id: Id, approval: CoreApproval)
    requires StateInv(s, session, next) && CoreSound(id, approval) && id < next
    requires forall other | other in s.attempts :: s.attempts[other].approval != id
    ensures StateInv(s.(core := s.core[id := approval]), session, next)
  {
    var core := s.core[id := approval];
    forall other | other in core ensures CoreSound(other, core[other]) {
      assert other != id ==> CoreSound(other, s.core[other]);
    }
  }

  /** A new or changed approval beside the same occupant. */
  lemma ApprovedKeepsInv(m: Machine, id: Id, approval: CoreApproval)
    requires Inv(m) && CoreSound(id, approval) && id < m.nextId && id !in m.kept
    requires forall other | other in m.state.attempts :: m.state.attempts[other].approval != id
    ensures Inv(m.(state := m.state.(core := m.state.core[id := approval])))
  {
    var n := m.(state := m.state.(core := m.state.core[id := approval]));
    ApprovedKeeps(m.state.core, m.kept, id, approval);
    SameOccupantTracked(m, n);
    ApprovedStateSound(m.state, m.session, m.nextId, id, approval);
  }

  lemma IssueForKeepsInv(m: Machine, id: Id, now: nat, certificate: Option<Certificate>, faults: Faults)
    requires Inv(m) && id in m.state.attempts
    ensures Inv(IssueFor(m, id, now, certificate, faults).0)
  {
    var a := m.state.attempts[id];
    var dropped := DropAttempt(Forget(m, a.workspace), id);
    AttemptTracks(m, id);
    KeptAreInCore(m.state.core, m.kept);
    assert AttemptSound(id, a, m.session);
    DropAttemptKeepsInv(m, id);
    if certificate.Some? && now + RECOVERY_TTL <= U64_MAX {
      var c := certificate.value;
      var approval := CoreApproval(c.identity, a.appCsr, a.coreBinding, a.session, a.generation, false, now + RECOVERY_TTL,
                                   Material(a.approval, c.identity, c.chain, c.notAfter));
      ApprovedKeepsInv(dropped, a.approval, approval);
      PersistKeepsInv(dropped.(state := dropped.state.(core := dropped.state.core[a.approval := approval])), faults.persist);
    }
  }

  lemma SubmitKeepsInv(m: Machine, peer: Peer, id: Id, challenge: Id, code: Option<Code>, now: nat,
                       certificate: Option<Certificate>, faults: Faults)
    requires Inv(m)
    ensures Inv(Submit(m, peer, id, challenge, code, now, certificate, faults).0)
  {
    if SubmitRefusal(m, peer, id, challenge, code).None? {
      var a := m.state.attempts[id];
      if now > a.expires || now > a.hardExpires {
        EndAttemptKeepsInv(m, id, Expired, faults);
      } else if a.code != code.value {
        CountWrongCodeKeepsInv(m, id, faults);
      } else if CloseSucceeds(a.workspace, faults.closes) {
        IssueForKeepsInv(m, id, now, certificate, faults);
      }
    }
  }

  lemma RemovedApprovalKeepsInv(m: Machine, core: map<Id, CoreApproval>)
    requires Inv(m) && Keeps(core, m.kept)
    requires core.Keys <= m.state.core.Keys && forall id | id in core :: core[id] == m.state.core[id]
    ensures Inv(m.(state := m.state.(core := core)))
  {
    var n := m.(state := m.state.(core := core));
    forall id | id in n.state.core ensures CoreSound(id, n.state.core[id]) {
      assert CoreSound(id, m.state.core[id]);
    }
    forall w | w in n.owned && w !in n.leaked ensures IsTracked(n.state, w) {
      assert IsTracked(m.state, w);
    }
  }

  lemma RemoveLapsedKeepsInv(m: Machine, approval: Id, now: nat, faults: Faults)
    requires Inv(m) && ApprovalLapsed(m, approval, now)
    ensures Inv(RemoveLapsed(m, approval, faults).0)
  {
    var core := m.state.core - {approval};
    forall other | other in m.kept ensures KeepsAt(core, m.kept, other) {
      assert KeepsAt(m.state.core, m.kept, other);
    }
    RemovedApprovalKeepsInv(m, core);
    PersistKeepsInv(m.(state := m.state.(core := core)), faults.persist);
  }

  lemma AuthorizeKeepsInv(m: Machine, core: Digest, approval: Id, appCsr: Digest, now: nat, faults: Faults)
    requires Inv(m)
    ensures Inv(AuthorizeFirstApp(m, core, approval, appCsr, now, faults).0)
  {
    if ApprovalLapsed(m, approval, now) {
      RemoveLapsedKeepsInv(m, approval, now, faults);
    }
  }

  lemma ConfirmKeepsInv(m: Machine, core: Digest, approval: Id, appCsr: Digest, generation: nat, now: nat, faults: Faults)
    requires Inv(m)
    ensures Inv(ConfirmFirstApp(m, core, approval, appCsr, generation, now, faults).0)
  {
    if ApprovalLapsed(m, approval, now) {
      RemoveLapsedKeepsInv(m, approval, now, faults);
    } else if approval in m.state.core && !m.state.core[approval].confirmed {
      ConfirmedKeepsInv(m, approval, faults.persist);
    }
  }

  function WithConfirmed(m: Machine, approval: Id): Machine
    requires approval in m.state.core
  {
    m.(state := m.state.(core := m.state.core[approval := Confirmed(m.state.core[approval])]))
  }

  lemma ConfirmedInMemoryKeepsInv(m: Machine, approval: Id)
    requires Inv(m) && approval in m.state.core && !m.state.core[approval].confirmed
    ensures Inv(WithConfirmed(m, approval))
  {
    assert CoreSound(approval, m.state.core[approval]);
    KeptAreInCore(m.state.core, m.kept);
    ApprovedKeepsInv(m, approval, Confirmed(m.state.core[approval]));
  }

  lemma KeptGrows(m: Machine, approval: Id, image: Image)
    requires Inv(m) && approval in m.state.core && m.state.core[approval].confirmed
    requires image.records == Records(m.state) && |image.records| <= MAX_APPROVALS
    ensures Inv(m.(file := Some(image), kept := m.kept[approval := m.state.core[approval]]))
  {
    var n := m.(file := Some(image), kept := m.kept[approval := m.state.core[approval]]);
    forall other | other in n.kept ensures KeepsAt(n.state.core, n.kept, other) {
      if other != approval {
        assert KeepsAt(m.state.core, m.kept, other);
      }
    }
    assert WrittenBy(image, m.state, m.session, m.nextId, n.kept);
    assert TracksOwned(n);
  }

  lemma PersistOutcome(m: Machine, fault: PersistFault)
    ensures var (n, ok) := PersistMachine(m, fault);
      if !ok then n == m
      else
        && |Records(m.state)| <= MAX_APPROVALS
        && n == m.(file := if m.state.attempts == map[] && m.state.app == map[] && m.state.core == map[] then None
                           else Some(Image(Records(m.state), fault.size)))
  {
  }

  lemma ConfirmedKeepsInv(m: Machine, approval: Id, fault: PersistFault)
    requires Inv(m) && approval in m.state.core && !m.state.core[approval].confirmed
    ensures var (n, ok) := PersistMachine(WithConfirmed(m, approval), fault);
      Inv(if ok then n.(kept := m.kept[approval := Confirmed(m.state.core[approval])]) else n)
  {
    var changed := WithConfirmed(m, approval);
    ConfirmedInMemoryKeepsInv(m, approval);
    PersistOutcome(changed, fault);
    assert approval in changed.state.core;
    if PersistMachine(changed, fault).1 {
      KeptGrows(changed, approval, Image(Records(changed.state), fault.size));
    }
  }

  // ---------------------------------------------------------------- sweeping

  /** Either nothing is due and nothing changes, or the one occupant is due and nothing else is left. */
  lemma DueCases(m: Machine, now: nat)
    requires Inv(m)
    ensures var due, reaped := m.state.orphans + ReapedWorkspaces(m.state, now), Reaped(m.state, now);
      || (due == [] && reaped == m.state && m.state.orphans == [])
      || (&& |due| == 1 && ValidWorkspace(due[0].workspace)
          && (forall w :: IsTracked(m.state, w) <==> w == due[0].workspace)
          && reaped.attempts == map[] && reaped.app == map[] && reaped.active == {})
  {
    if id :| id in m.state.attempts {
      AttemptDueCases(m, id, now);
    } else if id :| id in m.state.app {
      AppDueCases(m, id, now);
    } else {
      VacantDueCases(m, now);
    }
  }

  lemma VacantDueCases(m: Machine, now: nat)
    requires Inv(m) && m.state.attempts == map[] && m.state.app == map[]
    ensures ReapedWorkspaces(m.state, now) == [] && Reaped(m.state, now) == m.state && m.state.active == {}
    ensures m.state.orphans == [] || (&& |m.state.orphans| == 1 && ValidWorkspace(m.state.orphans[0].workspace)
                                      && forall w :: IsTracked(m.state, w) <==> w == m.state.orphans[0].workspace)
  {
    NothingReaped(m.state, now);
    assert |m.state.orphans| <= 1;
    if m.state.orphans != [] {
      assert ValidWorkspace(m.state.orphans[0].workspace);
      OrphanTracks(m.state);
    }
  }

  lemma OrphanTracks(s: State)
    requires s.attempts == map[] && s.app == map[] && |s.orphans| == 1
    ensures forall w :: IsTracked(s, w) <==> w == s.orphans[0].workspace
  {
  }

  lemma NothingReaped(s: State, now: nat)
    requires LateAttempts(s, now) == {} && LateApp(s, now) == {}
    ensures ReapedWorkspaces(s, now) == [] && Reaped(s, now) == s
  {
    assert LateSessions(s, now) == {};
    assert s.attempts - {} == s.attempts && s.app - {} == s.app;
  }

  lemma AttemptDueCases(m: Machine, id: Id, now: nat)
    requires Inv(m) && id in m.state.attempts
    ensures var a := m.state.attempts[id];
      if now > a.hardExpires then
        && ReapedWorkspaces(m.state, now) == [Orphan(a.session, a.workspace)]
        && Reaped(m.state, now) == m.state.(attempts := map[], active := {})
      else ReapedWorkspaces(m.state, now) == [] && Reaped(m.state, now) == m.state
    ensures forall w :: IsTracked(m.state, w) <==> w == m.state.attempts[id].workspace
    ensures m.state.app == map[] && m.state.orphans == [] && ValidWorkspace(m.state.attempts[id].workspace)
  {
    AttemptTracks(m, id);
    assert LateApp(m.state, now) == {};
    if now > m.state.attempts[id].hardExpires {
      assert LateAttempts(m.state, now) == {id};
      assert SortedKeys({id})[0] in SortedKeys({id});
      assert LateSessions(m.state, now) == {m.session};
    } else {
      assert LateAttempts(m.state, now) == {};
      NothingReaped(m.state, now);
    }
  }

  lemma AppDueCases(m: Machine, id: Id, now: nat)
    requires Inv(m) && id in m.state.app
    ensures var a := m.state.app[id];
      if now > a.expires then
        && ReapedWorkspaces(m.state, now) == [Orphan(a.session, a.workspace)]
        && Reaped(m.state, now) == m.state.(app := map[], active := {})
      else ReapedWorkspaces(m.state, now) == [] && Reaped(m.state, now) == m.state
    ensures forall w :: IsTracked(m.state, w) <==> w == m.state.app[id].workspace
    ensures m.state.attempts == map[] && m.state.orphans == [] && ValidWorkspace(m.state.app[id].workspace)
  {
    AppTracks(m, id);
    assert LateAttempts(m.state, now) == {};
    if now > m.state.app[id].expires {
      assert LateApp(m.state, now) == {id};
      assert SortedKeys({id})[0] in SortedKeys({id});
      assert LateSessions(m.state, now) == {m.session};
    } else {
      assert LateApp(m.state, now) == {};
      NothingReaped(m.state, now);
    }
  }

  lemma ForgottenPrefix(m: Machine, due: seq<Orphan>, n: nat)
    requires n <= |due| <= 1
    ensures ForgetAll(m, due[..n]) == if n == 0 then m else Forget(m, due[0].workspace)
  {
    if n == 0 {
      assert WorkspacesOf(due[..n]) == {};
    } else {
      assert due[..n] == due == [due[0]];
      assert WorkspacesOf(due[..n]) == {due[0].workspace};
    }
  }

  /** The machine a sweep works on: expired approvals are gone, the rest is as before. */
  function Live(m: Machine, now: nat): Machine {
    m.(state := m.state.(core := LiveCore(m.state.core, now)))
  }

  lemma LiveKeepsInv(m: Machine, now: nat)
    requires Inv(m)
    ensures Inv(Live(m, now))
  {
    forall other | other in m.kept ensures KeepsAt(LiveCore(m.state.core, now), m.kept, other) {
      assert KeepsAt(m.state.core, m.kept, other);
    }
    RemovedApprovalKeepsInv(m, LiveCore(m.state.core, now));
  }

  ghost function DueOf(live: Machine, now: nat): seq<Orphan> {
    live.state.orphans + ReapedWorkspaces(live.state, now)
  }

  lemma StuckSweepKeepsInv(live: Machine, now: nat, fails: set<WorkspaceId>)
    requires Inv(live) && ClosedPrefix(DueOf(live, now), fails) < |DueOf(live, now)|
    ensures |DueOf(live, now)| == 1 && ClosedPrefix(DueOf(live, now), fails) == 0
    ensures Inv(live.(state := Reaped(live.state, now).(orphans := DueOf(live, now))))
  {
    DueCases(live, now);
    OrphanedKeepsInv(live, live.(state := Reaped(live.state, now).(orphans := DueOf(live, now))), DueOf(live, now)[0]);
  }

  lemma ClearSweepKeepsInv(live: Machine, now: nat)
    requires Inv(live)
    ensures Inv(ForgetAll(live, DueOf(live, now)).(state := Reaped(live.state, now).(orphans := [])))
  {
    var due := DueOf(live, now);
    DueCases(live, now);
    ForgottenPrefix(live, due, |due|);
    assert due[..|due|] == due;
    if due != [] {
      EmptiedKeepsInv(live, ForgetAll(live, due).(state := Reaped(live.state, now).(orphans := [])));
    }
  }

  function Cleared(live: Machine, due: seq<Orphan>, now: nat): Machine {
    ForgetAll(live, due).(state := Reaped(live.state, now).(orphans := []))
  }

  lemma SweepShape(m: Machine, now: nat, faults: Faults)
    ensures var (n, result) := Sweep(m, now, faults);
      var live, due := Live(m, now), DueOf(Live(m, now), now);
      var k := ClosedPrefix(due, faults.closes);
      if k < |due| then n == ForgetAll(m, due[..k]).(state := Reaped(live.state, now).(orphans := due)) && result.Err?
      else
        (n == Cleared(live, due, now) || n == PersistMachine(Cleared(live, due, now), faults.sweepPersist).0)
        && n.state.orphans == [] && n.session == m.session && n.nextId == m.nextId
  {
    var due := DueOf(Live(m, now), now);
    assert due[..|due|] == due;
  }

  /** A sweep ends with no orphan, or stops at the one workspace it could not close. */
  lemma SweepKeepsInv(m: Machine, now: nat, faults: Faults)
    requires Inv(m)
    ensures var (n, result) := Sweep(m, now, faults);
      && Inv(n) && n.session == m.session && n.nextId == m.nextId
      && (result.Ok? ==> n.state.orphans == [])
  {
    var live, due := Live(m, now), DueOf(Live(m, now), now);
    LiveKeepsInv(m, now);
    SweepShape(m, now, faults);
    if ClosedPrefix(due, faults.closes) < |due| {
      StuckSweepKeepsInv(live, now, faults.closes);
      ForgottenPrefix(m, due, 0);
    } else {
      ClearSweepKeepsInv(live, now);
      PersistKeepsInv(Cleared(live, due, now), faults.sweepPersist);
    }
  }

  // ---------------------------------------------------------------- creating

  predicate Vacant(s: State) {
    s.attempts == map[] && s.app == map[] && s.orphans == [] && s.active == {}
  }

  lemma StartsKeepInv(m: Machine, starts: Starts)
    requires Inv(m)
    ensures Inv(m.(state := m.state.(starts := starts)))
  {
    var n := m.(state := m.state.(starts := starts));
    forall id | id in n.state.core ensures CoreSound(id, n.state.core[id]) {
      assert CoreSound(id, m.state.core[id]);
    }
    forall w | w in n.owned && w !in n.leaked ensures IsTracked(n.state, w) {
      assert IsTracked(m.state, w);
    }
  }

  lemma MintKeepsInv(m: Machine, next: Id)
    requires Inv(m) && m.nextId <= next
    ensures Inv(m.(nextId := next))
  {
    FileInvGrows(m.file, m.nextId, next, m.kept);
  }

  /** Vacant machines own nothing that is not leaked, so a new tenant is all that need be tracked. */
  lemma TenantKeepsInv(m: Machine, n: Machine, w: WorkspaceId)
    requires Inv(m) && Vacant(m.state) && n == m.(state := n.state, owned := m.owned + {w})
    requires n.state.core == m.state.core && Sound(n.state, m.session) && IdsBelow(n.state, m.nextId) && Unissued(n.state)
    requires IsTracked(n.state, w)
    ensures Inv(n)
  {
    assert forall other | other in m.owned && other !in m.leaked :: IsTracked(m.state, other);
  }

  lemma AttemptTenantKeepsInv(m: Machine, id: Id, a: Attempt)
    requires Inv(m) && Vacant(m.state) && AttemptSound(id, a, m.session)
    requires id < m.nextId && a.approval < m.nextId && a.approval !in m.state.core
    ensures Inv(WithAttempt(m, id, a).(owned := m.owned + {a.workspace}))
  {
    var n := WithAttempt(m, id, a).(owned := m.owned + {a.workspace});
    assert n.state.attempts == map[id := a];
    forall other | other in n.state.core ensures CoreSound(other, n.state.core[other]) {
      assert CoreSound(other, m.state.core[other]);
    }
    TenantKeepsInv(m, n, a.workspace);
  }

  lemma AppTenantKeepsInv(m: Machine, id: Id, a: AppApproval)
    requires Inv(m) && Vacant(m.state) && AppSound(id, a, m.session) && id < m.nextId
    ensures Inv(WithApp(m, id, a).(owned := m.owned + {a.workspace}))
  {
    var n := WithApp(m, id, a).(owned := m.owned + {a.workspace});
    assert n.state.app == map[id := a];
    forall other | other in n.state.core ensures CoreSound(other, n.state.core[other]) {
      assert CoreSound(other, m.state.core[other]);
    }
    TenantKeepsInv(m, n, a.workspace);
  }

  lemma KeepOrRollBackKeepsInv(before: Machine, after: Machine, w: WorkspaceId, faults: Faults)
    requires Inv(before) && Vacant(before.state) && after == before.(state := after.state)
    requires Inv(after.(owned := after.owned + {w}))
    ensures Inv(KeepOrRollBack(before, after, w, before.session, faults).0)
  {
    var created := after.(owned := after.owned + {w});
    PersistKeepsInv(created, faults.persist);
    var n := KeepOrRollBack(before, after, w, before.session, faults).0;
    if !PersistMachine(created, faults.persist).1 {
      assert n.state == before.state && n.file == before.file;
      forall x | x in n.owned && x !in n.leaked ensures IsTracked(n.state, x) {
        assert x in before.owned && x !in before.leaked;
        assert IsTracked(before.state, x);
      }
    }
  }

  lemma OpenAttemptShape(m: Machine, peer: Peer, q: Request, code: Code, now: nat, creation: Creation, faults: Faults)
    ensures var minted := m.(nextId := m.nextId + 3);
      OpenAttempt(m, peer, q, code, now, creation, faults).0
      == if now + HARD_LIFETIME <= U64_MAX && Create(creation).Ok? then
           HoldAttempt(minted, m.nextId, NewAttempt(m, peer, q, code, now, Create(creation).value), faults).0
         else minted
  {
  }

  lemma OpenApprovalShape(m: Machine, core: Digest, q: Request, code: Code, now: nat, creation: Creation, faults: Faults)
    ensures var minted := m.(nextId := m.nextId + 2);
      OpenApproval(m, core, q, code, now, creation, faults).0
      == if now + CODE_TTL <= U64_MAX && Create(creation).Ok? then
           HoldApproval(minted, m.nextId, NewApproval(m, core, q, code, now, Create(creation).value), faults).0
         else minted
  {
  }

  lemma NewTenantKeepsInv(m: Machine, peer: Peer, core: Digest, q: Request, code: Code, now: nat, w: WorkspaceId)
    requires Inv(m) && Vacant(m.state) && RequestRefusal(m, Some(q)).None? && ValidWorkspace(w)
    ensures var minted, a := m.(nextId := m.nextId + 3), NewAttempt(m, peer, q, code, now, w);
      Inv(minted) && Inv(WithAttempt(minted, m.nextId, a).(owned := m.owned + {w}))
    ensures var minted, a := m.(nextId := m.nextId + 2), NewApproval(m, core, q, code, now, w);
      Inv(minted) && Inv(WithApp(minted, m.nextId, a).(owned := m.owned + {w}))
  {
    MintKeepsInv(m, m.nextId + 3);
    MintKeepsInv(m, m.nextId + 2);
    AttemptTenantKeepsInv(m.(nextId := m.nextId + 3), m.nextId, NewAttempt(m, peer, q, code, now, w));
    AppTenantKeepsInv(m.(nextId := m.nextId + 2), m.nextId, NewApproval(m, core, q, code, now, w));
  }

  lemma KeptAttemptKeepsInv(m: Machine, peer: Peer, q: Request, code: Code, now: nat, w: WorkspaceId, faults: Faults)
    requires Inv(m) && Vacant(m.state) && RequestRefusal(m, Some(q)).None? && ValidWorkspace(w)
    ensures var minted := m.(nextId := m.nextId + 3);
      Inv(HoldAttempt(minted, m.nextId, NewAttempt(m, peer, q, code, now, w), faults).0)
  {
    var minted := m.(nextId := m.nextId + 3);
    NewTenantKeepsInv(m, peer, 0, q, code, now, w);
    KeepOrRollBackKeepsInv(minted, WithAttempt(minted, m.nextId, NewAttempt(m, peer, q, code, now, w)), w, faults);
  }

  lemma KeptApprovalKeepsInv(m: Machine, core: Digest, q: Request, code: Code, now: nat, w: WorkspaceId, faults: Faults)
    requires Inv(m) && Vacant(m.state) && RequestRefusal(m, Some(q)).None? && ValidWorkspace(w)
    ensures var minted := m.(nextId := m.nextId + 2);
      Inv(HoldApproval(minted, m.nextId, NewApproval(m, core, q, code, now, w), faults).0)
  {
    var minted := m.(nextId := m.nextId + 2);
    NewTenantKeepsInv(m, 0, core, q, code, now, w);
    KeepOrRollBackKeepsInv(minted, WithApp(minted, m.nextId, NewApproval(m, core, q, code, now, w)), w, faults);
  }

  lemma OpenAttemptKeepsInv(m: Machine, peer: Peer, q: Request, code: Code, now: nat, creation: Creation, faults: Faults)
    requires Inv(m) && Vacant(m.state) && RequestRefusal(m, Some(q)).None?
    ensures Inv(OpenAttempt(m, peer, q, code, now, creation, faults).0)
  {
    OpenAttemptShape(m, peer, q, code, now, creation, faults);
    MintKeepsInv(m, m.nextId + 3);
    if Create(creation).Ok? {
      KeptAttemptKeepsInv(m, peer, q, code, now, Create(creation).value, faults);
    }
  }

  lemma OpenApprovalKeepsInv(m: Machine, core: Digest, q: Request, code: Code, now: nat, creation: Creation, faults: Faults)
    requires Inv(m) && Vacant(m.state) && RequestRefusal(m, Some(q)).None?
    ensures Inv(OpenApproval(m, core, q, code, now, creation, faults).0)
  {
    OpenApprovalShape(m, core, q, code, now, creation, faults);
    MintKeepsInv(m, m.nextId + 2);
    if Create(creation).Ok? {
      KeptApprovalKeepsInv(m, core, q, code, now, Create(creation).value, faults);
    }
  }

  lemma BeginKeepsInv(m: Machine, peer: Peer, q: Request, code: Code, now: nat, creation: Creation, faults: Faults)
    requires Inv(m) && m.state.orphans == [] && RequestRefusal(m, Some(q)).None?
    ensures Inv(Begin(m, peer, q, code, now, creation, faults).0)
  {
    if StartRefusal(m.state, q.session).None? {
      VacantUnlessActive(m);
      var starts := Prune(m.state.starts, now);
      StartsKeepInv(m, starts);
      StartsKeepInv(m, Record(starts, peer, now));
      OpenAttemptKeepsInv(m.(state := m.state.(starts := Record(starts, peer, now))), peer, q, code, now, creation, faults);
    }
  }

  lemma SameRefusal(m: Machine, n: Machine, request: Option<Request>)
    requires n.session == m.session
    ensures RequestRefusal(n, request) == RequestRefusal(m, request)
  {
  }

  lemma StartKeepsInv(m: Machine, peer: Peer, request: Option<Request>, code: Code, now: nat, creation: Creation, faults: Faults)
    requires Inv(m)
    ensures Inv(Start(m, peer, request, code, now, creation, faults).0)
  {
    SweepKeepsInv(m, now, faults);
    if RequestRefusal(m, request).None? {
      var (swept, result) := Sweep(m, now, faults);
      if result.Ok? {
        SameRefusal(m, swept, request);
        BeginKeepsInv(swept, peer, request.value, code, now, creation, faults);
      }
    }
  }

  lemma VacantUnlessActive(m: Machine)
    requires Inv(m) && m.state.orphans == [] && m.session !in m.state.active
    ensures Vacant(m.state)
  {
  }

  lemma BeginAppKeepsInv(m: Machine, core: Digest, q: Request, code: Code, now: nat, creation: Creation, faults: Faults)
    requires Inv(m) && m.state.orphans == [] && RequestRefusal(m, Some(q)).None?
    ensures Inv(BeginApp(m, core, q, code, now, creation, faults).0)
  {
    if AppRefusal(m.state, core, q).None? {
      VacantUnlessActive(m);
      OpenApprovalKeepsInv(m, core, q, code, now, creation, faults);
    }
  }

  lemma StartAppKeepsInv(m: Machine, core: Digest, q: Request, code: Code, now: nat, creation: Creation, faults: Faults)
    requires Inv(m)
    ensures Inv(StartApp(m, core, q, code, now, creation, faults).0)
  {
    SweepKeepsInv(m, now, faults);
    if RequestRefusal(m, Some(q)).None? {
      var (swept, result) := Sweep(m, now, faults);
      if result.Ok? {
        SameRefusal(m, swept, Some(q));
        BeginAppKeepsInv(swept, core, q, code, now, creation, faults);
      }
    }
  }

  // ---------------------------------------------------------------- app submissions

  lemma EndAppKeepsInv(m: Machine, id: Id, faults: Faults)
    requires Inv(m) && id in m.state.app
    ensures Inv(EndApp(m, id, faults).0)
  {
    DropAppKeepsInv(m, id);
    PersistKeepsInv(DropApp(Forget(m, m.state.app[id].workspace), id), faults.persist);
  }

  lemma CountedAppKeepsInv(m: Machine, id: Id)
    requires Inv(m) && id in m.state.app
    ensures var a := m.state.app[id].(failures := Counted(m.state.app[id].failures));
      Inv(m.(state := m.state.(app := m.state.app[id := a])))
  {
    AppTracks(m, id);
    var a := m.state.app[id].(failures := Counted(m.state.app[id].failures));
    var n := m.(state := m.state.(app := m.state.app[id := a]));
    assert AppSound(id, m.state.app[id], m.session);
    forall w | w in n.owned && w !in n.leaked ensures IsTracked(n.state, w) {
      assert IsTracked(m.state, w);
      assert n.state.app[id].workspace == w;
    }
  }

  lemma CountWrongAppCodeKeepsInv(m: Machine, id: Id, faults: Faults)
    requires Inv(m) && id in m.state.app
    ensures Inv(CountWrongAppCode(m, id, faults).0)
  {
    var a := m.state.app[id].(failures := Counted(m.state.app[id].failures));
    var counted := m.(state := m.state.(app := m.state.app[id := a]));
    CountedAppKeepsInv(m, id);
    if a.failures >= MAX_CODE_FAILURES {
      EndAppKeepsInv(counted, id, faults);
    } else {
      PersistKeepsInv(counted, faults.persist);
    }
  }

  lemma SubmitAppKeepsInv(m: Machine, core: Digest, id: Id, challenge: Id, code: Option<Code>, csrMatches: bool, appCsr: Digest,
                          now: nat, faults: Faults)
    requires Inv(m)
    ensures Inv(SubmitApp(m, core, id, challenge, code, csrMatches, appCsr, now, faults).0)
  {
    if SubmitAppRefusal(m, core, id, challenge, code, csrMatches, appCsr).None? {
      if now <= m.state.app[id].expires && m.state.app[id].code != code.value {
        CountWrongAppCodeKeepsInv(m, id, faults);
      } else {
        EndAppKeepsInv(m, id, faults);
      }
    }
  }

  /** A recovery query changes nothing beyond the sweep. */
  lemma ReconcileOnlySweeps(m: Machine, approval: Id, coreBinding: Digest, session: Session, now: nat, faults: Faults)
    ensures Reconcile(m, approval, coreBinding, session, now, faults).0 == Sweep(m, now, faults).0
  {
  }

  lemma ReconcileKeepsInv(m: Machine, approval: Id, coreBinding: Digest, session: Session, now: nat, faults: Faults)
    requires Inv(m)
    ensures Inv(Reconcile(m, approval, coreBinding, session, now, faults).0)
  {
    ReconcileOnlySweeps(m, approval, coreBinding, session, now, faults);
    SweepKeepsInv(m, now, faults);
  }

  // ---------------------------------------------------------------- restart

  lemma RestoredIsSound(s: State, written: Session, next: Id, restored: State, session: Session)
    requires Sound(s, written) && IdsBelow(s, next) && ValidSession(session)
    requires AllPending(PendingRecords(s)) && restored == NEW_STATE.(core := s.core, orphans := OrphansOf(PendingRecords(s)))
    ensures StateInv(restored, session, next)
  {
    forall id | id in restored.core ensures CoreSound(id, restored.core[id]) {
      assert CoreSound(id, s.core[id]);
    }
    assert |PendingRecords(s)| == |s.attempts.Keys| + |s.app.Keys|;
    assert |s.attempts.Keys| == |s.attempts| && |s.app.Keys| == |s.app|;
    forall i | 0 <= i < |restored.orphans| ensures ValidWorkspace(restored.orphans[i].workspace) {
      assert ValidRecord(PendingRecords(s)[i]);
    }
  }

  /** The process that starts over the state file, if it can be read. */
  function Boot(m: Machine, session: Session, readFails: bool): Option<Machine> {
    match Restore(m.file, readFails)
    case None => None
    case Some(s) => if ValidSession(session) then Some(m.(session := session, state := s, owned := {}, leaked := {})) else None
  }

  lemma BootEstablishesInv(m: Machine, session: Session, readFails: bool)
    requires FileInv(m.file, m.nextId, m.kept) && m.nextId > 0
    ensures var n := Boot(m, session, readFails);
      n.Some? ==> Inv(n.value)
  {
    if Boot(m, session, readFails).Some? && m.file.Some? {
      var s, written :| WrittenBy(m.file.value, s, written, m.nextId, m.kept);
      RecordsRestore(s, written);
      RestoredIsSound(s, written, m.nextId, Boot(m, session, readFails).value.state, session);
    }
  }

  // ---------------------------------------------------------------- runs

  datatype Op =
    | OpBoot(session: Session, readFails: bool)
    | OpStart(peer: Peer, request: Option<Request>, secret: Code, now: nat, creation: Creation, faults: Faults)
    | OpAbort(id: Id, faults: Faults)
    | OpSubmit(peer: Peer, id: Id, challenge: Id, code: Option<Code>, now: nat, certificate: Option<Certificate>, faults: Faults)
    | OpReconcile(approval: Id, coreBinding: Digest, session: Session, now: nat, faults: Faults)
    | OpAuthorize(core: Digest, approval: Id, appCsr: Digest, now: nat, faults: Faults)
    | OpConfirm(core: Digest, approval: Id, appCsr: Digest, generation: nat, now: nat, faults: Faults)
    | OpStartApp(core: Digest, q: Request, secret: Code, now: nat, creation: Creation, faults: Faults)
    | OpSubmitApp(core: Digest, id: Id, challenge: Id, code: Option<Code>, csrMatches: bool, appCsr: Digest, now: nat, faults: Faults)
    | OpCrash

  /** A host: the process when `up`, otherwise only its state file counts. */
  datatype World = World(up: bool, m: Machine)

  const EMPTY_WORLD := World(false, Machine([], NEW_STATE, None, {}, {}, 1, map[]))

  ghost function StepMachine(m: Machine, op: Op): Machine
    requires !op.OpBoot? && !op.OpCrash?
  {
    match op
    case OpStart(peer, request, secret, now, creation, faults) => Start(m, peer, request, secret, now, creation, faults).0
    case OpAbort(id, faults) => Abort(m, id, faults).0
    case OpSubmit(peer, id, challenge, code, now, certificate, faults) =>
      Submit(m, peer, id, challenge, code, now, certificate, faults).0
    case OpReconcile(approval, coreBinding, session, now, faults) => Reconcile(m, approval, coreBinding, session, now, faults).0
    case OpAuthorize(core, approval, appCsr, now, faults) => AuthorizeFirstApp(m, core, approval, appCsr, now, faults).0
    case OpConfirm(core, approval, appCsr, generation, now, faults) =>
      ConfirmFirstApp(m, core, approval, appCsr, generation, now, faults).0
    case OpStartApp(core, q, secret, now, creation, faults) => StartApp(m, core, q, secret, now, creation, faults).0
    case OpSubmitApp(core, id, challenge, code, csrMatches, appCsr, now, faults) =>
      SubmitApp(m, core, id, challenge, code, csrMatches, appCsr, now, faults).0
  }

  ghost function Step(w: World, op: Op): World {
    if op.OpBoot? then
      if w.up then w
      else
        match Boot(w.m, op.session, op.readFails)
        case None => w
        case Some(m) => World(true, m)
    else if !w.up then w
    else if op.OpCrash? then w.(up := false)
    else w.(m := StepMachine(w.m, op))
  }

  ghost function Run(w: World, ops: seq<Op>): World
    decreases |ops|
  {
    if ops == [] then w else Run(Step(w, ops[0]), ops[1..])
  }

  ghost predicate WorldInv(w: World) {
    w.m.nextId > 0 && FileInv(w.m.file, w.m.nextId, w.m.kept) && (w.up ==> Inv(w.m))
  }

  lemma StepMachineKeepsInv(m: Machine, op: Op)
    requires Inv(m) && !op.OpBoot? && !op.OpCrash?
    ensures Inv(StepMachine(m, op))
  {
    match op
    case OpStart(peer, request, secret, now, creation, faults) => StartKeepsInv(m, peer, request, secret, now, creation, faults);
    case OpAbort(id, faults) => AbortKeepsInv(m, id, faults);
    case OpSubmit(peer, id, challenge, code, now, certificate, faults) =>
      SubmitKeepsInv(m, peer, id, challenge, code, now, certificate, faults);
    case OpReconcile(approval, coreBinding, session, now, faults) =>
      ReconcileKeepsInv(m, approval, coreBinding, session, now, faults);
    case OpAuthorize(core, approval, appCsr, now, faults) => AuthorizeKeepsInv(m, core, approval, appCsr, now, faults);
    case OpConfirm(core, approval, appCsr, generation, now, faults) =>
      ConfirmKeepsInv(m, core, approval, appCsr, generation, now, faults);
    case OpStartApp(core, q, secret, now, creation, faults) => StartAppKeepsInv(m, core, q, secret, now, creation, faults);
    case OpSubmitApp(core, id, challenge, code, csrMatches, appCsr, now, faults) =>
      SubmitAppKeepsInv(m, core, id, challenge, code, csrMatches, appCsr, now, faults);
  }

  lemma StepKeepsInv(w: World, op: Op)
    requires WorldInv(w)
    ensures WorldInv(Step(w, op))
  {
    if op.OpBoot? {
      BootEstablishesInv(w.m, op.session, op.readFails);
    } else if w.up && !op.OpCrash? {
      StepMachineKeepsInv(w.m, op);
    }
  }

  lemma {:induction false} RunKeepsInv(w: World, ops: seq<Op>)
    requires WorldInv(w)
    ensures WorldInv(Run(w, ops))
    decreases |ops|
  {
    if ops != [] {
      StepKeepsInv(w, ops[0]);
      RunKeepsInv(Step(w, ops[0]), ops[1..]);
    }
  }

  /**
   * In every run with crashes and restarts the runtime tracks at most one verification workspace, its
   * active sessions are exactly those of live attempts and approvals, and every workspace this process
   * created and has not closed is tracked, unless a best-effort rollback close failed.
   */
  lemma AtMostOneWorkspaceTracked(ops: seq<Op>)
    ensures var w := Run(EMPTY_WORLD, ops);
      w.up ==>
        var s := w.m.state;
        && |s.attempts| + |s.app| + |s.orphans| <= 1
        && s.active == (set id | id in s.attempts :: s.attempts[id].session) + (set id | id in s.app :: s.app[id].session)
        && forall x | x in w.m.owned && x !in w.m.leaked :: IsTracked(s, x)
  {
    RunKeepsInv(EMPTY_WORLD, ops);
    var w := Run(EMPTY_WORLD, ops);
    if w.up {
      ActiveIsExact(w.m);
    }
  }

  lemma ActiveIsExact(m: Machine)
    requires Inv(m)
    ensures m.state.active
         == (set id | id in m.state.attempts :: m.state.attempts[id].session) + (set id | id in m.state.app :: m.state.app[id].session)
  {
    var s := m.state;
    if id :| id in s.attempts {
      AttemptTracks(m, id);
    } else if id :| id in s.app {
      AppTracks(m, id);
    }
  }

  lemma BootFailsOnlyOnSize(m: Machine, session: Session)
    requires FileInv(m.file, m.nextId, m.kept) && ValidSession(session)
    ensures Boot(m, session, false).None? <==> m.file.Some? && m.file.value.size > MAX_READABLE_BYTES
  {
    if m.file.Some? {
      var s, written :| WrittenBy(m.file.value, s, written, m.nextId, m.kept);
      RecordsRestore(s, written);
    }
  }

  /** After any run, a restart is refused exactly when the state file outgrew the readable 64 KiB. */
  lemma RestartFailsOnlyOnSize(ops: seq<Op>, session: Session)
    requires ValidSession(session) && !Run(EMPTY_WORLD, ops).up
    ensures var m := Run(EMPTY_WORLD, ops).m;
      Boot(m, session, false).None? <==> m.file.Some? && m.file.value.size > MAX_READABLE_BYTES
  {
    RunKeepsInv(EMPTY_WORLD, ops);
    BootFailsOnlyOnSize(Run(EMPTY_WORLD, ops).m, session);
  }
}
