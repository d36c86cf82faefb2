/** Who is admitted: the shared allowlist file against the edits reported before, whichever handle made them. */
module AllowlistStandings {
  import opened Common
  import opened Allowlist

  /** What the reported edits say about one App. */
  datatype Standing = Standing(fingerprint: Fingerprint, notAfter: nat, state: EntryState)

  type Standings = map<App, Standing>

  /** Whether the edit was reported as done. */
  predicate Reported(w: World, op: Op) {
    op.OpEdit? && op.handle in w.cached && Transact(w.file, op.edit, op.fault).1.Ok?
  }

  function Stand(s: Standings, edit: Edit): Standings {
    match edit
    case Add(c, state) => s[c.app := Standing(c.fingerprint, c.notAfter, state)]
    case Confirm(app, _) => if app in s then s[app := s[app].(state := Active)] else s
    case Deny(app) => if app in s then s[app := s[app].(state := Revoked)] else s
  }

  function StandingsAfter(w: World, ops: seq<Op>, s: Standings): Standings
    decreases |ops|
  {
    if ops == [] then s
    else StandingsAfter(Step(w, ops[0]), ops[1..], if Reported(w, ops[0]) then Stand(s, ops[0].edit) else s)
  }

  predicate Admits(s: Standings, fingerprint: Fingerprint) {
    exists app :: app in s && s[app].fingerprint == fingerprint && s[app].state == Active
  }

  /** Why an edit is refused, from what was reported before; `None` when it is not. */
  function WhyNot(s: Standings, edit: Edit): Option<AllowlistError> {
    match edit
    case Add(c, _) => if c.app in s || Admits(s, c.fingerprint) then Some(Duplicate) else None
    case Confirm(app, fingerprint) =>
      if app !in s then Some(NotFound)
      else if s[app].state == Pending && s[app].fingerprint == fingerprint then None
      else Some(Unauthorized)
    case Deny(app) => if app !in s then Some(NotFound) else if s[app].state == Revoked then Some(AlreadyRevoked) else None
  }

  predicate Agrees(r: Registry, s: Standings) {
    && r.entries.Keys == s.Keys
    && forall app | app in s ::
         r.entries[app].fingerprint == s[app].fingerprint && r.entries[app].notAfter == s[app].notAfter && r.entries[app].state == s[app].state
  }

  lemma ActiveAgrees(r: Registry, s: Standings, fingerprint: Fingerprint)
    requires Agrees(r, s)
    ensures HasActive(r, fingerprint) <==> Admits(s, fingerprint)
  {
    if HasActive(r, fingerprint) {
      var app :| app in r.entries && r.entries[app].fingerprint == fingerprint && r.entries[app].state == Active;
      assert app in s;
    }
    if Admits(s, fingerprint) {
      var app :| app in s && s[app].fingerprint == fingerprint && s[app].state == Active;
      assert app in r.entries;
    }
  }

  lemma EditAgrees(r: Registry, s: Standings, edit: Edit)
    requires Agrees(r, s)
    ensures match WhyNot(s, edit)
            case Some(error) => Edited(r, edit) == Err(error)
            case None => if edit.Confirm? || r.generation < U64_MAX then Edited(r, edit).Ok? else Edited(r, edit) == Err(Persistence)
    ensures Edited(r, edit).Ok? ==> Agrees(Edited(r, edit).value, Stand(s, edit))
  {
    if edit.Add? { ActiveAgrees(r, s, edit.certificate.fingerprint); }
  }

  lemma {:induction false} RunAgrees(w: World, ops: seq<Op>, s: Standings)
    requires Inv(w) && Agrees(w.file, s)
    ensures Inv(Run(w, ops)) && Agrees(Run(w, ops).file, StandingsAfter(w, ops, s))
    decreases |ops|
  {
    if ops != [] {
      StepGoesForward(w, ops[0]);
      if ops[0].OpEdit? { EditAgrees(w.file, s, ops[0].edit); }
      RunAgrees(Step(w, ops[0]), ops[1..], if Reported(w, ops[0]) then Stand(s, ops[0].edit) else s);
    }
  }

  /**
   * After any interleaving of handles, however stale, an edit is answered from what was reported before,
   * not from what its handle had cached: done exactly when nothing speaks against it, and otherwise with
   * the reason. A pending App is activated only by the fingerprint it was enrolled with.
   */
  lemma EditsAreAnsweredByStanding(ops: seq<Op>, op: Op)
    requires op.OpEdit? && op.handle in Run(EMPTY_WORLD, ops).cached && op.fault == NoFault
    requires op.edit.Confirm? || Run(EMPTY_WORLD, ops).file.generation < U64_MAX
    ensures var w, s := Run(EMPTY_WORLD, ops), StandingsAfter(EMPTY_WORLD, ops, map[]);
      match WhyNot(s, op.edit)
      case Some(error) => Transact(w.file, op.edit, op.fault) == (w.file, Err(error))
      case None => Reported(w, op)
  {
    RunAgrees(EMPTY_WORLD, ops, map[]);
    EditAgrees(Run(EMPTY_WORLD, ops).file, StandingsAfter(EMPTY_WORLD, ops, map[]), op.edit);
  }

  predicate AdmitsAt(s: Standings, fingerprint: Fingerprint, now: nat) {
    exists app :: app in s && s[app].fingerprint == fingerprint && s[app].state == Active && s[app].notAfter > now
  }

  lemma AllowedAgrees(r: Registry, s: Standings, fingerprint: Fingerprint, now: nat)
    requires Agrees(r, s)
    ensures Allows(r, fingerprint, now) <==> AdmitsAt(s, fingerprint, now)
  {
    if Allows(r, fingerprint, now) {
      var app :| app in r.entries && r.entries[app].fingerprint == fingerprint && r.entries[app].state == Active && r.entries[app].notAfter > now;
      assert app in s;
    }
    if AdmitsAt(s, fingerprint, now) {
      var app :| app in s && s[app].fingerprint == fingerprint && s[app].state == Active && s[app].notAfter > now;
      assert app in r.entries;
    }
  }

  /** A certificate is admitted exactly when a reported App stands active with its fingerprint and has not expired. */
  lemma AdmittedExactlyByStanding(ops: seq<Op>, fingerprint: Fingerprint, now: nat)
    ensures Allows(Run(EMPTY_WORLD, ops).file, fingerprint, now)
            <==> AdmitsAt(StandingsAfter(EMPTY_WORLD, ops, map[]), fingerprint, now)
  {
    RunAgrees(EMPTY_WORLD, ops, map[]);
    AllowedAgrees(Run(EMPTY_WORLD, ops).file, StandingsAfter(EMPTY_WORLD, ops, map[]), fingerprint, now);
  }
}
