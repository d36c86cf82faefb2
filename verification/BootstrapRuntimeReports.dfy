/** What the bootstrap runtime reports is on file when it is reported. */
module BootstrapRuntimeReports {
  import opened Common
  import opened Sessions
  import opened StartLimiter
  import opened BootstrapRuntime
  import opened BootstrapRuntimeRuns
  import opened BootstrapRuntimeAnswers
  import Durability = BootstrapRuntimeDurability

  /** Answers that report a change: a success, a counted wrong code, or an end. */
  predicate ReportsChange(e: Event) {
    || Challenges(e)
    || (e.op.OpAbort? && e.answer == Acknowledged(Ok(())))
    || (e.op.OpSubmit? && e.answer.Certified?
        && (e.answer.certified.Ok? || e.answer.certified.error in {CodeMismatch, CodeRateLimited, Expired}))
    || (e.op.OpSubmitApp? && e.answer.Consumed?
        && (e.answer.consumed.Ok? || e.answer.consumed.error in {CodeMismatch, CodeRateLimited, Expired}))
  }

  lemma HeldIsWritten(before: Machine, after: Machine, w: WorkspaceId, session: Session, faults: Faults)
    requires KeepOrRollBack(before, after, w, session, faults).1
    ensures Durability.Mirrors(KeepOrRollBack(before, after, w, session, faults).0)
  {
    Durability.PersistMirrors(after.(owned := after.owned + {w}), faults.persist);
  }

  /** An answered opening was made in a verified workspace and is on file. */
  lemma OpeningsAreWritten(m: Machine, peer: Peer, core: Digest, q: Request, code: Code, now: nat, creation: Creation, faults: Faults)
    ensures var (n, answer) := OpenAttempt(m, peer, q, code, now, creation, faults);
      answer.Ok? ==> Durability.Mirrors(n) && creation.Created? && creation.verified
    ensures var (n, answer) := OpenApproval(m, core, q, code, now, creation, faults);
      answer.Ok? ==> Durability.Mirrors(n) && creation.Created? && creation.verified
  {
    if Create(creation).Ok? {
      var w := Create(creation).value;
      var three, two := m.(nextId := m.nextId + 3), m.(nextId := m.nextId + 2);
      var a, b := NewAttempt(m, peer, q, code, now, w), NewApproval(m, core, q, code, now, w);
      if HoldAttempt(three, m.nextId, a, faults).1 { HeldIsWritten(three, WithAttempt(three, m.nextId, a), w, q.session, faults); }
      if HoldApproval(two, m.nextId, b, faults).1 { HeldIsWritten(two, WithApp(two, m.nextId, b), w, q.session, faults); }
    }
  }

  lemma BeginsAreWritten(m: Machine, peer: Peer, q: Request, code: Code, now: nat, creation: Creation, faults: Faults)
    ensures var (n, answer) := Begin(m, peer, q, code, now, creation, faults);
      answer.Ok? ==> Durability.Mirrors(n) && creation.Created? && creation.verified
  {
    var counted := m.(state := m.state.(starts := Record(Prune(m.state.starts, now), peer, now)));
    OpeningsAreWritten(counted, peer, 0, q, code, now, creation, faults);
  }

  lemma StartsAreWritten(m: Machine, op: Op)
    requires op.OpStart?
    ensures var (n, answer) := Start(m, op.peer, op.request, op.secret, op.now, op.creation, op.faults);
      answer.Ok? ==> Durability.Mirrors(n) && op.creation.Created? && op.creation.verified
  {
    if op.request.Some? {
      BeginsAreWritten(Sweep(m, op.now, op.faults).0, op.peer, op.request.value, op.secret, op.now, op.creation, op.faults);
    }
  }

  lemma AppBeginsAreWritten(m: Machine, op: Op)
    requires op.OpStartApp?
    ensures var (n, answer) := BeginApp(m, op.core, op.q, op.secret, op.now, op.creation, op.faults);
      answer.Ok? ==> Durability.Mirrors(n) && op.creation.Created? && op.creation.verified
  {
    OpeningsAreWritten(m, 0, op.core, op.q, op.secret, op.now, op.creation, op.faults);
  }

  lemma AppStartsAreWritten(m: Machine, op: Op)
    requires op.OpStartApp?
    ensures var (n, answer) := StartApp(m, op.core, op.q, op.secret, op.now, op.creation, op.faults);
      answer.Ok? ==> Durability.Mirrors(n) && op.creation.Created? && op.creation.verified
  {
    AppBeginsAreWritten(Sweep(m, op.now, op.faults).0, op);
  }

  lemma EndingsAreWritten(m: Machine, id: Id, error: RuntimeError, faults: Faults)
    requires error != WorkspaceUnavailable && error != PersistenceFailed
    ensures id in m.state.attempts ==>
      var (n, answer) := EndAttempt(m, id, error, faults);
      (answer == error ==> Durability.Mirrors(n)) && (answer == error || answer == WorkspaceUnavailable || answer == PersistenceFailed)
    ensures id in m.state.app ==>
      var (n, answer) := EndApp(m, id, faults);
      (answer.None? ==> Durability.Mirrors(n)) && (answer.None? || answer == Some(WorkspaceUnavailable) || answer == Some(PersistenceFailed))
  {
    if id in m.state.attempts {
      Durability.PersistMirrors(DropAttempt(Forget(m, m.state.attempts[id].workspace), id), faults.persist);
    }
    if id in m.state.app {
      Durability.PersistMirrors(DropApp(Forget(m, m.state.app[id].workspace), id), faults.persist);
    }
  }

  lemma WrongCodesAreWritten(m: Machine, id: Id, faults: Faults)
    requires id in m.state.attempts
    ensures var (n, answer) := CountWrongCode(m, id, faults);
      (answer == CodeMismatch || answer == CodeRateLimited ==> Durability.Mirrors(n)) && answer != Expired
  {
    var counted := Durability.CountedAttempt(m, id);
    if counted.state.attempts[id].failures >= MAX_CODE_FAILURES {
      EndingsAreWritten(counted, id, CodeRateLimited, faults);
    } else {
      Durability.PersistMirrors(counted, faults.persist);
    }
  }

  lemma WrongAppCodesAreWritten(m: Machine, id: Id, faults: Faults)
    requires id in m.state.app
    ensures var (n, answer) := CountWrongAppCode(m, id, faults);
      (answer == CodeMismatch || answer == CodeRateLimited ==> Durability.Mirrors(n)) && answer != Expired
  {
    var counted := Durability.CountedApp(m, id);
    if counted.state.app[id].failures >= MAX_CODE_FAILURES {
      EndingsAreWritten(counted, id, CodeRateLimited, faults);
    } else {
      Durability.PersistMirrors(counted, faults.persist);
    }
  }

  lemma IssuancesAreWritten(m: Machine, id: Id, now: nat, certificate: Option<Certificate>, faults: Faults)
    requires id in m.state.attempts
    ensures var (n, answer) := IssueFor(m, id, now, certificate, faults);
      (answer.Ok? ==> Durability.Mirrors(n)) && (answer.Err? ==> answer.error == PersistenceFailed || answer.error == InvalidField)
  {
    var n := IssueFor(m, id, now, certificate, faults).0;
    Durability.PersistMirrors(n.(file := m.file), faults.persist);
  }

  lemma SubmissionsAreWritten(m: Machine, op: Op)
    requires op.OpSubmit?
    ensures var (n, answer) := Submit(m, op.peer, op.id, op.challenge, op.code, op.now, op.certificate, op.faults);
      answer.Ok? || answer.error in {CodeMismatch, CodeRateLimited, Expired} ==> Durability.Mirrors(n)
  {
    if SubmitRefusal(m, op.peer, op.id, op.challenge, op.code).None? {
      var a := m.state.attempts[op.id];
      if op.now > a.expires || op.now > a.hardExpires {
        EndingsAreWritten(m, op.id, Expired, op.faults);
      } else if a.code != op.code.value {
        WrongCodesAreWritten(m, op.id, op.faults);
      } else {
        IssuancesAreWritten(m, op.id, op.now, op.certificate, op.faults);
      }
    }
  }

  lemma AppSubmissionsAreWritten(m: Machine, op: Op)
    requires op.OpSubmitApp?
    ensures var (n, answer) := SubmitApp(m, op.core, op.id, op.challenge, op.code, op.csrMatches, op.appCsr, op.now, op.faults);
      answer.Ok? || answer.error in {CodeMismatch, CodeRateLimited, Expired} ==> Durability.Mirrors(n)
  {
    if SubmitAppRefusal(m, op.core, op.id, op.challenge, op.code, op.csrMatches, op.appCsr).None? {
      var a := m.state.app[op.id];
      if op.now <= a.expires && a.code != op.code.value {
        WrongAppCodesAreWritten(m, op.id, op.faults);
      } else {
        EndingsAreWritten(m, op.id, Expired, op.faults);
      }
    }
  }

  lemma AbortsAreWritten(m: Machine, op: Op)
    requires op.OpAbort? && op.id in m.state.attempts
    ensures var (n, answer) := Abort(m, op.id, op.faults);
      answer.Ok? ==> Durability.Mirrors(n)
  {
    var n := Abort(m, op.id, op.faults).0;
    Durability.PersistMirrors(n.(file := m.file), op.faults.persist);
  }

  /**
   * Whatever the process reports as changed is on file when it is reported: the file then holds exactly
   * what memory does, and an opening was made in a workspace that was created and verified.
   */
  lemma ReportsAreWritten(w: World, op: Op)
    requires w.up && ReportsChange(Event(op, AnswerOf(w, op)))
    ensures Durability.Mirrors(Step(w, op).m) || (op.OpAbort? && Step(w, op) == w)
    ensures op.OpStart? || op.OpStartApp? ==> op.creation.Created? && op.creation.verified
  {
    match op
    case OpStart(_, _, _, _, _, _) => StartsAreWritten(w.m, op);
    case OpStartApp(_, _, _, _, _, _) => AppStartsAreWritten(w.m, op);
    case OpSubmit(_, _, _, _, _, _, _) => SubmissionsAreWritten(w.m, op);
    case OpSubmitApp(_, _, _, _, _, _, _, _) => AppSubmissionsAreWritten(w.m, op);
    case OpAbort(id, _) => if id in w.m.state.attempts { AbortsAreWritten(w.m, op); }
    case _ =>
  }

  /** Once the request is sound and the sweep clean, a start is refused for want of room exactly at one of two limits. */
  lemma StartsAreRefusedAtTheLimits(m: Machine, op: Op)
    requires op.OpStart? && op.request.Some? && Sweep(m, op.now, op.faults).1.Ok?
    requires op.creation.CreationFails? ==> op.creation.error != CapacityExhausted
    requires var q := op.request.value;
      q.session == m.session && q.appCsr != 0 && q.coreBinding != 0 && q.generation != 0
    ensures var s := Sweep(m, op.now, op.faults).0.state;
      Start(m, op.peer, op.request, op.secret, op.now, op.creation, op.faults).1 == Err(CapacityExhausted)
      <==> |s.attempts| >= 8 || |s.core| + |s.app| >= 256
  {
    var swept, q := Sweep(m, op.now, op.faults).0, op.request.value;
    BeginsWithinLimits(swept, op.peer, q, op.secret, op.now, op.creation, op.faults);
  }

  lemma BeginsWithinLimits(m: Machine, peer: Peer, q: Request, code: Code, now: nat, creation: Creation, faults: Faults)
    requires creation.CreationFails? ==> creation.error != CapacityExhausted
    ensures Begin(m, peer, q, code, now, creation, faults).1 == Err(CapacityExhausted)
            <==> |m.state.attempts| >= 8 || |m.state.core| + |m.state.app| >= 256
  {
  }
}
