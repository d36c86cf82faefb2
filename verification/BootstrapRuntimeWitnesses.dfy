/**
 * Runs of the bootstrap runtime from nothing in which a promise does not hold: the code limit, for any
 * number of codes, while a workspace will not close; and a confirmation, reported, that a crash loses.
 */
module BootstrapRuntimeWitnesses {
  import opened Common
  import opened Sessions
  import opened StartLimiter
  import opened BootstrapRuntime
  import opened BootstrapRuntimeRuns
  import Durability = BootstrapRuntimeDurability
  import Theorems = BootstrapRuntimeTheorems

  /** One peer starting, guessing and finally knowing the code, all within the code's lifetime. */
  datatype Guesser = Guesser(
    session: Session, peer: Peer, q: Request, code: Code, guess: Code, workspace: WorkspaceId, certificate: Certificate, now: nat)

  predicate Admissible(g: Guesser) {
    && ValidSession(g.session) && ValidWorkspace(g.workspace) && g.guess != g.code
    && g.q.session == g.session && g.q.appCsr != 0 && g.q.coreBinding != 0 && g.q.generation != 0
    && g.now + RECOVERY_TTL <= U64_MAX
  }

  const PERSISTS := PersistFault(false, 0)

  function Closing(fails: set<WorkspaceId>): Faults {
    Faults(fails, PERSISTS, PERSISTS)
  }

  function StartOp(g: Guesser): Op {
    OpStart(g.peer, Some(g.q), g.code, g.now, Created(g.workspace, true), Closing({}))
  }

  function SubmitOp(g: Guesser, code: Code, fails: set<WorkspaceId>): Op {
    OpSubmit(g.peer, 1, 3, Some(code), g.now, Some(g.certificate), Closing(fails))
  }

  /** A process is started, an attempt is opened, and `n` wrong codes are submitted while the workspace will not close. */
  function Guesses(g: Guesser, n: nat): seq<Op> {
    if n == 0 then [OpBoot(g.session, false), StartOp(g)] else Guesses(g, n - 1) + [SubmitOp(g, g.guess, {g.workspace})]
  }

  function AttemptOf(g: Guesser, failures: nat): Attempt {
    Attempt(g.peer, 2, 3, g.code, g.q.appCsr, g.q.coreBinding, g.q.session, g.q.generation, g.workspace,
            g.now + CODE_TTL, g.now + HARD_LIFETIME, failures)
  }

  /** The one attempt, with this many failures, and nothing else. */
  predicate Awaits(m: Machine, g: Guesser, failures: nat) {
    && m.session == g.session
    && m.state.attempts == map[1 := AttemptOf(g, failures)] && m.state.app == map[] && m.state.core == map[]
  }

  lemma SingleRecord(s: State, id: Id)
    requires s.attempts.Keys == {id} && s.app == map[] && s.core == map[]
    ensures |Records(s)| == 1
  {
  }

  lemma EmptySweep(m: Machine, now: nat, faults: Faults)
    requires m.state == NEW_STATE && m.owned == {} && m.leaked == {}
    ensures Sweep(m, now, faults) == (m, Ok(()))
  {
    assert LateAttempts(NEW_STATE, now) == {} && LateApp(NEW_STATE, now) == {};
    NothingReaped(NEW_STATE, now);
    assert LiveCore(map[], now) == map[];
    assert ForgetAll(m, []) == m;
  }

  lemma StartOpens(m: Machine, g: Guesser)
    requires Admissible(g) && m.session == g.session && m.state == NEW_STATE && m.owned == {} && m.leaked == {} && m.nextId == 1
    ensures Awaits(Start(m, g.peer, Some(g.q), g.code, g.now, Created(g.workspace, true), Closing({})).0, g, 0)
  {
    EmptySweep(m, g.now, Closing({}));
    BeginOpens(m, g);
  }

  lemma HeldOpens(m: Machine, g: Guesser)
    requires Admissible(g) && m.session == g.session && m.state.attempts == map[] && m.state.app == map[] && m.state.core == map[]
    ensures Awaits(HoldAttempt(m, 1, AttemptOf(g, 0), Closing({})).0, g, 0)
  {
    var holding := WithAttempt(m, 1, AttemptOf(g, 0)).(owned := m.owned + {g.workspace});
    assert holding.state.attempts == map[1 := AttemptOf(g, 0)];
    SingleRecord(holding.state, 1);
    PersistOutcome(holding, PERSISTS);
  }

  lemma BeginIsOpen(m: Machine, g: Guesser)
    requires m.state == NEW_STATE
    ensures var counted := m.(state := m.state.(starts := Record(map[], g.peer, g.now)));
      Begin(m, g.peer, g.q, g.code, g.now, Created(g.workspace, true), Closing({}))
      == OpenAttempt(counted, g.peer, g.q, g.code, g.now, Created(g.workspace, true), Closing({}))
  {
    assert Prune(map[], g.now) == map[];
  }

  lemma BeginOpens(m: Machine, g: Guesser)
    requires Admissible(g) && m.session == g.session && m.state == NEW_STATE && m.nextId == 1
    ensures Awaits(Begin(m, g.peer, g.q, g.code, g.now, Created(g.workspace, true), Closing({})).0, g, 0)
  {
    var counted := m.(state := m.state.(starts := Record(map[], g.peer, g.now)));
    BeginIsOpen(m, g);
    OpenAttemptShape(counted, g.peer, g.q, g.code, g.now, Created(g.workspace, true), Closing({}));
    HeldOpens(counted.(nextId := 4), g);
  }

  /** A wrong code is counted; the attempt stays, because below the limit it may and above it cannot be closed. */
  lemma GuessCounts(m: Machine, g: Guesser, failures: nat)
    requires Admissible(g) && Awaits(m, g, failures)
    ensures Awaits(Submit(m, g.peer, 1, 3, Some(g.guess), g.now, Some(g.certificate), Closing({g.workspace})).0, g, Counted(failures))
    ensures Theorems.ComparesWrongCode(m, SubmitOp(g, g.guess, {g.workspace}))
  {
  }

  /** The one approval, written to the file and not confirmed. */
  ghost predicate Approved(m: Machine, g: Guesser) {
    && m.session == g.session && m.file == Some(Image(Records(m.state), 0)) && 2 in m.state.core
    && var a := m.state.core[2];
    && !a.confirmed && a.recoveryExpires == g.now + RECOVERY_TTL
    && a.coreIdentity == g.certificate.identity && a.appCsr == g.q.appCsr && a.generation == g.q.generation
  }

  /** The correct code is accepted whatever number of wrong ones was counted, once the workspace closes. */
  lemma CodeIsAccepted(m: Machine, g: Guesser, failures: nat)
    requires Admissible(g) && Awaits(m, g, failures)
    ensures var (n, result) := Submit(m, g.peer, 1, 3, Some(g.code), g.now, Some(g.certificate), Closing({}));
      && result == Ok(Material(2, g.certificate.identity, g.certificate.chain, g.certificate.notAfter))
      && Approved(n, g)
  {
    var a := AttemptOf(g, failures);
    var dropped := DropAttempt(Forget(m, g.workspace), 1);
    assert dropped.state.attempts == map[];
    var material := Material(2, g.certificate.identity, g.certificate.chain, g.certificate.notAfter);
    var approval := CoreApproval(g.certificate.identity, a.appCsr, a.coreBinding, a.session, a.generation, false, g.now + RECOVERY_TTL, material);
    var issued := dropped.(state := dropped.state.(core := map[2 := approval]));
    assert |Records(issued.state)| == 1;
  }

  lemma {:induction false} RunExtends(w: World, h: Theorems.History, ops: seq<Op>, last: Op)
    ensures Run(w, ops + [last]) == Step(Run(w, ops), last)
    ensures Theorems.RunHistory(w, h, ops + [last]) == Theorems.StepHistory(Run(w, ops), Theorems.RunHistory(w, h, ops), last)
    decreases |ops|
  {
    if ops == [] {
      assert ops + [last] == [last] && [last][1..] == [];
    } else {
      assert (ops + [last])[1..] == ops[1..] + [last];
      RunExtends(Step(w, ops[0]), Theorems.StepHistory(w, h, ops[0]), ops[1..], last);
    }
  }

  /** After `n` wrong codes: all of them compared, all from the fifth on stuck, and the attempt still waiting. */
  predicate Guessed(w: World, h: Theorems.History, g: Guesser, n: nat) {
    && w.up && Awaits(w.m, g, if n < MAX_FAILURE_COUNT then n else MAX_FAILURE_COUNT)
    && h.wrong[1] == n && h.stuck[1] == (if n < MAX_CODE_FAILURES then 0 else n - (MAX_CODE_FAILURES - 1))
  }

  lemma OpeningGuesses(g: Guesser)
    requires Admissible(g)
    ensures Guessed(Run(EMPTY_WORLD, Guesses(g, 0)), Theorems.RunHistory(EMPTY_WORLD, Theorems.EMPTY_HISTORY, Guesses(g, 0)), g, 0)
  {
    var boot, start := OpBoot(g.session, false), StartOp(g);
    var ops := [boot];
    assert ops + [start] == Guesses(g, 0);
    assert ops[1..] == [];
    var booted := Step(EMPTY_WORLD, boot);
    assert booted == World(true, EMPTY_WORLD.m.(session := g.session));
    assert Run(EMPTY_WORLD, ops) == booted;
    RunExtends(EMPTY_WORLD, Theorems.EMPTY_HISTORY, ops, start);
    StartOpens(booted.m, g);
  }

  lemma OneMoreGuess(w: World, h: Theorems.History, g: Guesser, n: nat)
    requires Admissible(g) && Guessed(w, h, g, n)
    ensures var op := SubmitOp(g, g.guess, {g.workspace});
      Guessed(Step(w, op), Theorems.StepHistory(w, h, op), g, n + 1)
  {
    GuessCounts(w.m, g, if n < MAX_FAILURE_COUNT then n else MAX_FAILURE_COUNT);
  }

  lemma {:induction false} GuessesCount(g: Guesser, n: nat)
    requires Admissible(g)
    ensures Guessed(Run(EMPTY_WORLD, Guesses(g, n)), Theorems.RunHistory(EMPTY_WORLD, Theorems.EMPTY_HISTORY, Guesses(g, n)), g, n)
  {
    if n == 0 {
      OpeningGuesses(g);
    } else {
      var ops := Guesses(g, n - 1);
      GuessesCount(g, n - 1);
      OneMoreGuess(Run(EMPTY_WORLD, ops), Theorems.RunHistory(EMPTY_WORLD, Theorems.EMPTY_HISTORY, ops), g, n - 1);
      RunExtends(EMPTY_WORLD, Theorems.EMPTY_HISTORY, ops, SubmitOp(g, g.guess, {g.workspace}));
    }
  }

  /**
   * The five-code limit holds only while workspaces close: for every `n` there is a run in which `n` wrong
   * codes are compared for one attempt and the correct code is then accepted and issued for.
   */
  lemma AnyNumberOfWrongCodesThenAccepted(g: Guesser, n: nat)
    requires Admissible(g)
    ensures var w := Run(EMPTY_WORLD, Guesses(g, n));
      && Theorems.RunHistory(EMPTY_WORLD, Theorems.EMPTY_HISTORY, Guesses(g, n)).wrong[1] == n
      && var (after, result) := Submit(w.m, g.peer, 1, 3, Some(g.code), g.now, Some(g.certificate), Closing({}));
         && result == Ok(Material(2, g.certificate.identity, g.certificate.chain, g.certificate.notAfter))
         && Run(EMPTY_WORLD, Guesses(g, n) + [SubmitOp(g, g.code, {})]) == w.(m := after)
  {
    GuessesCount(g, n);
    var w := Run(EMPTY_WORLD, Guesses(g, n));
    CodeIsAccepted(w.m, g, if n < MAX_FAILURE_COUNT then n else MAX_FAILURE_COUNT);
    RunExtends(EMPTY_WORLD, Theorems.EMPTY_HISTORY, Guesses(g, n), SubmitOp(g, g.code, {}));
  }

  // ---------------------------------------------------------------- a lost confirmation

  function ConfirmOp(g: Guesser, now: nat, faults: Faults): Op {
    OpConfirm(g.certificate.identity, 2, g.q.appCsr, g.q.generation, now, faults)
  }

  lemma RunTakes(w: World, op: Op, rest: seq<Op>)
    ensures Run(w, [op] + rest) == Run(Step(w, op), rest)
  {
    assert ([op] + rest)[1..] == rest;
  }

  /**
   * A confirmation that reports success and is lost: in a run from nothing the persist of the first
   * confirmation fails, the retry reports success without writing, and after a crash and a restart the
   * approval is unconfirmed again.
   */
  lemma RetriedConfirmationIsLost(g: Guesser, at: nat, later: nat, failing: Faults, faults: Faults)
    requires Admissible(g) && at <= g.now + RECOVERY_TTL && failing.persist.fails
    ensures var w := Run(EMPTY_WORLD, Guesses(g, 0) + [SubmitOp(g, g.code, {})]);
      var first := ConfirmFirstApp(w.m, g.certificate.identity, 2, g.q.appCsr, g.q.generation, at, failing);
      var second := ConfirmFirstApp(first.0, g.certificate.identity, 2, g.q.appCsr, g.q.generation, later, faults);
      var n := Run(w, [ConfirmOp(g, at, failing), ConfirmOp(g, later, faults), OpCrash, OpBoot(g.session, false)]);
      && first.1 == Err(PersistenceFailed) && second.1 == Ok(())
      && n.up && 2 in n.m.state.core && !n.m.state.core[2].confirmed
  {
    var ops, submit := Guesses(g, 0), SubmitOp(g, g.code, {});
    OpeningGuesses(g);
    RunExtends(EMPTY_WORLD, Theorems.EMPTY_HISTORY, ops, submit);
    CodeIsAccepted(Run(EMPTY_WORLD, ops).m, g, 0);
    RunKeepsInv(EMPTY_WORLD, ops + [submit]);
    RetryIsLost(Run(EMPTY_WORLD, ops + [submit]), g, at, later, failing, faults);
  }

  lemma FourSteps(w: World, a: Op, b: Op, c: Op, d: Op)
    ensures Run(w, [a, b, c, d]) == Step(Step(Step(Step(w, a), b), c), d)
  {
    RunTakes(w, a, [b] + ([c] + ([d] + [])));
    RunTakes(Step(w, a), b, [c] + ([d] + []));
    RunTakes(Step(Step(w, a), b), c, [d] + []);
    RunTakes(Step(Step(Step(w, a), b), c), d, []);
    assert [a, b, c, d] == [a] + ([b] + ([c] + ([d] + [])));
  }

  lemma CrashedReboots(w: World, session: Session)
    requires w.up && Boot(w.m, session, false).Some?
    ensures Step(Step(w, OpCrash), OpBoot(session, false)) == World(true, Boot(w.m, session, false).value)
  {
  }

  lemma ConfirmSteps(w: World, g: Guesser, now: nat, faults: Faults)
    requires w.up
    ensures Step(w, ConfirmOp(g, now, faults))
         == w.(m := ConfirmFirstApp(w.m, g.certificate.identity, 2, g.q.appCsr, g.q.generation, now, faults).0)
  {
  }

  lemma RetryIsLost(w: World, g: Guesser, at: nat, later: nat, failing: Faults, faults: Faults)
    requires w.up && Inv(w.m) && Approved(w.m, g) && at <= g.now + RECOVERY_TTL && failing.persist.fails
    ensures var first := ConfirmFirstApp(w.m, g.certificate.identity, 2, g.q.appCsr, g.q.generation, at, failing);
      var second := ConfirmFirstApp(first.0, g.certificate.identity, 2, g.q.appCsr, g.q.generation, later, faults);
      var n := Run(w, [ConfirmOp(g, at, failing), ConfirmOp(g, later, faults), OpCrash, OpBoot(g.session, false)]);
      && first.1 == Err(PersistenceFailed) && second.1 == Ok(())
      && n.up && 2 in n.m.state.core && !n.m.state.core[2].confirmed
  {
    Durability.RetryLeavesFile(w.m, 2, at, later, failing, faults, 0);
    FourSteps(w, ConfirmOp(g, at, failing), ConfirmOp(g, later, faults), OpCrash, OpBoot(g.session, false));
    ConfirmSteps(w, g, at, failing);
    ConfirmSteps(Step(w, ConfirmOp(g, at, failing)), g, later, faults);
    CrashedReboots(Step(Step(w, ConfirmOp(g, at, failing)), ConfirmOp(g, later, faults)), g.session);
  }
}
