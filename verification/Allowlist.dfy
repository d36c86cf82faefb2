/** The App allowlist (src/enrollment.rs) and its shared protected file (src/allowlist.rs). */
module Allowlist {
  import opened Common

  type App = nat

  type Fingerprint = nat

  datatype EntryState = Pending | Active | Revoked

  datatype Entry = Entry(fingerprint: Fingerprint, state: EntryState, generation: nat, notAfter: nat)

  datatype Registry = Registry(generation: nat, entries: map<App, Entry>)

  const NEW_REGISTRY := Registry(1, map[])

  datatype RawCertificate = RawCertificate(app: App, fingerprint: Fingerprint, notAfter: nat)

  /** Public certificate metadata; its expiry lies after a nonzero start. */
  type Certificate = c: RawCertificate | c.notAfter != 0 witness RawCertificate(0, 0, 1)

  datatype AllowlistError = Duplicate | Persistence | NotFound | Unauthorized | AlreadyRevoked

  predicate HasActive(r: Registry, fingerprint: Fingerprint) {
    exists app | app in r.entries :: r.entries[app].fingerprint == fingerprint && r.entries[app].state == Active
  }

  function Enroll(r: Registry, c: Certificate, state: EntryState): (Registry, Result<Entry, AllowlistError>) {
    if c.app in r.entries || HasActive(r, c.fingerprint) then (r, Err(Duplicate))
    else if r.generation >= U64_MAX then (r, Err(Persistence))
    else
      var entry := Entry(c.fingerprint, state, r.generation + 1, c.notAfter);
      (Registry(r.generation + 1, r.entries[c.app := entry]), Ok(entry))
  }

  function Activate(r: Registry, app: App, fingerprint: Fingerprint): (Registry, Result<Entry, AllowlistError>) {
    if app !in r.entries then (r, Err(NotFound))
    else if r.entries[app].state != Pending || r.entries[app].fingerprint != fingerprint then (r, Err(Unauthorized))
    else
      var entry := r.entries[app].(state := Active);
      (r.(entries := r.entries[app := entry]), Ok(entry))
  }

  /** Every entry takes the new generation; only the selected one is denied. */
  function RevokedEntry(e: Entry, generation: nat, selected: bool): Entry {
    e.(generation := generation, state := if selected then Revoked else e.state)
  }

  function Revoke(r: Registry, app: App): (Registry, Result<nat, AllowlistError>) {
    if app !in r.entries then (r, Err(NotFound))
    else if r.entries[app].state == Revoked then (r, Err(AlreadyRevoked))
    else if r.generation >= U64_MAX then (r, Err(Persistence))
    else
      (Registry(r.generation + 1, map a | a in r.entries :: RevokedEntry(r.entries[a], r.generation + 1, a == app)), Ok(r.generation + 1))
  }

  predicate Allows(r: Registry, fingerprint: Fingerprint, now: nat) {
    exists app | app in r.entries ::
      r.entries[app].fingerprint == fingerprint && r.entries[app].state == Active && r.entries[app].notAfter > now
  }

  predicate ValidPersisted(r: Registry) {
    r.generation != 0 && forall app | app in r.entries :: r.entries[app].generation != 0 && r.entries[app].notAfter != 0
  }

  // ---------------------------------------------------------------- transactions by stale handles

  type Handle = nat

  datatype Fault = NoFault | LockFails | ReadFails | WriteFails

  datatype Edit = Add(certificate: Certificate, state: EntryState) | Confirm(app: App, fingerprint: Fingerprint) | Deny(app: App)

  /** The edited registry, or why the edit is refused. */
  function Edited(r: Registry, edit: Edit): Result<Registry, AllowlistError> {
    match edit
    case Add(certificate, state) =>
      var (n, result) := Enroll(r, certificate, state);
      if result.Ok? then Ok(n) else Err(result.error)
    case Confirm(app, fingerprint) =>
      var (n, result) := Activate(r, app, fingerprint);
      if result.Ok? then Ok(n) else Err(result.error)
    case Deny(app) =>
      var (n, result) := Revoke(r, app);
      if result.Ok? then Ok(n) else Err(result.error)
  }

  function Load(file: Registry, fault: Fault): Result<Registry, AllowlistError> {
    if fault == LockFails || fault == ReadFails || !ValidPersisted(file) then Err(Persistence) else Ok(file)
  }

  /** Lock, reload, edit, persist; the file changes only when the new registry is written. */
  function Transact(file: Registry, edit: Edit, fault: Fault): (Registry, Result<Registry, AllowlistError>) {
    match Load(file, fault)
    case Err(error) => (file, Err(error))
    case Ok(current) =>
      match Edited(current, edit)
      case Err(error) => (file, Err(error))
      case Ok(next) => if fault == WriteFails then (file, Err(Persistence)) else (next, Ok(next))
  }

  /** The protected file and what each handle last loaded or wrote. */
  datatype World = World(file: Registry, cached: map<Handle, Registry>)

  datatype Op = OpOpen(handle: Handle, fault: Fault) | OpReload(handle: Handle, fault: Fault) | OpEdit(handle: Handle, edit: Edit, fault: Fault)

  const EMPTY_WORLD := World(NEW_REGISTRY, map[])

  function Step(w: World, op: Op): World {
    match op
    case OpOpen(handle, fault) =>
      if Load(w.file, fault).Ok? then w.(cached := w.cached[handle := w.file]) else w
    case OpReload(handle, fault) =>
      if handle in w.cached && Load(w.file, fault).Ok? then w.(cached := w.cached[handle := w.file]) else w
    case OpEdit(handle, edit, fault) =>
      if handle !in w.cached then w
      else
        var (file, result) := Transact(w.file, edit, fault);
        World(file, if result.Ok? then w.cached[handle := result.value] else w.cached)
  }

  function Run(w: World, ops: seq<Op>): World
    decreases |ops|
  {
    if ops == [] then w else Run(Step(w, ops[0]), ops[1..])
  }

  // ---------------------------------------------------------------- later registries

  function Rank(state: EntryState): nat {
    match state case Pending => 0 case Active => 1 case Revoked => 2
  }

  /** The same certificate, further along its life. */
  predicate EntryLater(e: Entry, f: Entry) {
    f.fingerprint == e.fingerprint && f.notAfter == e.notAfter && e.generation <= f.generation && Rank(e.state) <= Rank(f.state)
  }

  predicate EntryKept(r: Registry, s: Registry, app: App)
    requires app in r.entries
  {
    && app in s.entries && EntryLater(r.entries[app], s.entries[app])
    && (r.generation == s.generation ==> (r.entries[app].state == Revoked <==> s.entries[app].state == Revoked))
  }

  /**
   * `s` may have followed `r`: no entry is lost, changes its certificate, or returns from revocation;
   * the generation never falls, and while it stands still nothing is added or revoked.
   */
  predicate Later(r: Registry, s: Registry) {
    && r.generation <= s.generation
    && (r.generation == s.generation ==> r.entries.Keys == s.entries.Keys)
    && forall app {:trigger EntryKept(r, s, app)} | app in r.entries :: EntryKept(r, s, app)
  }

  predicate Bounded(r: Registry) {
    ValidPersisted(r) && forall app | app in r.entries :: r.entries[app].generation <= r.generation
  }

  lemma LaterReflexive(r: Registry)
    ensures Later(r, r)
  {
  }

  lemma LaterTransitive(r: Registry, s: Registry, t: Registry)
    requires Later(r, s) && Later(s, t)
    ensures Later(r, t)
  {
    forall app | app in r.entries ensures EntryKept(r, t, app) {
      assert EntryKept(r, s, app) && EntryKept(s, t, app);
    }
  }

  /** Every edit leads to a later registry, one generation on unless it only activates. */
  lemma EditsGoForward(r: Registry, edit: Edit)
    requires Bounded(r) && Edited(r, edit).Ok?
    ensures Later(r, Edited(r, edit).value) && Bounded(Edited(r, edit).value)
    ensures Edited(r, edit).value.generation == if edit.Confirm? then r.generation else r.generation + 1
  {
  }

  ghost predicate Inv(w: World) {
    Bounded(w.file) && forall handle | handle in w.cached :: Later(w.cached[handle], w.file)
  }

  lemma StepGoesForward(w: World, op: Op)
    requires Inv(w)
    ensures Inv(Step(w, op)) && Later(w.file, Step(w, op).file)
  {
    LaterReflexive(w.file);
    var n := Step(w, op);
    if op.OpEdit? && Edited(w.file, op.edit).Ok? {
      EditsGoForward(w.file, op.edit);
    }
    LaterReflexive(n.file);
    forall handle | handle in n.cached ensures Later(n.cached[handle], n.file) {
      if n.cached[handle] != n.file {
        LaterTransitive(w.cached[handle], w.file, n.file);
      }
    }
  }

  lemma {:induction false} RunGoesForward(w: World, ops: seq<Op>)
    requires Inv(w)
    ensures Inv(Run(w, ops)) && Later(w.file, Run(w, ops).file)
    decreases |ops|
  {
    if ops == [] {
      LaterReflexive(w.file);
    } else {
      var n := Step(w, ops[0]);
      StepGoesForward(w, ops[0]);
      RunGoesForward(n, ops[1..]);
      LaterTransitive(w.file, n.file, Run(n, ops[1..]).file);
    }
  }

  lemma {:induction false} RunSplits(w: World, ops: seq<Op>, later: seq<Op>)
    ensures Run(w, ops + later) == Run(Run(w, ops), later)
    decreases |ops|
  {
    if ops == [] {
      assert ops + later == later;
    } else {
      assert (ops + later)[1..] == ops[1..] + later;
      RunSplits(Step(w, ops[0]), ops[1..], later);
    }
  }

  /**
   * Over any interleaving of stale handles a revoked App stays revoked with its certificate unchanged,
   * no entry disappears, and the file's generation never decreases.
   */
  lemma RevocationIsForever(ops: seq<Op>, later: seq<Op>, app: App)
    requires app in Run(EMPTY_WORLD, ops).file.entries
    ensures var r, s := Run(EMPTY_WORLD, ops).file, Run(EMPTY_WORLD, ops + later).file;
      && r.generation <= s.generation
      && app in s.entries && s.entries[app].fingerprint == r.entries[app].fingerprint && s.entries[app].notAfter == r.entries[app].notAfter
      && (r.entries[app].state == Revoked ==> s.entries[app].state == Revoked)
  {
    RunGoesForward(EMPTY_WORLD, ops);
    RunGoesForward(Run(EMPTY_WORLD, ops), later);
    RunSplits(EMPTY_WORLD, ops, later);
    assert EntryKept(Run(EMPTY_WORLD, ops).file, Run(EMPTY_WORLD, ops + later).file, app);
  }

  /**
   * What a handle still holds is a past state of the file. If its generation is the file's, it has missed
   * no enrollment and no revocation, so an App revoked on file is revoked for the handle too.
   */
  lemma StaleHandlesLagOnlyByGeneration(ops: seq<Op>, handle: Handle, app: App)
    requires handle in Run(EMPTY_WORLD, ops).cached && app in Run(EMPTY_WORLD, ops).file.entries
    requires Run(EMPTY_WORLD, ops).cached[handle].generation == Run(EMPTY_WORLD, ops).file.generation
    ensures var file, cached := Run(EMPTY_WORLD, ops).file, Run(EMPTY_WORLD, ops).cached[handle];
      app in cached.entries && (cached.entries[app].state == Revoked <==> file.entries[app].state == Revoked)
  {
    RunGoesForward(EMPTY_WORLD, ops);
    var w := Run(EMPTY_WORLD, ops);
    assert Later(w.cached[handle], w.file);
    assert EntryKept(w.cached[handle], w.file, app);
  }

  /** A successful enrollment or revocation raises the generation by one and, for a revocation, changes no sibling's standing. */
  lemma RevocationPreservesSiblings(r: Registry, app: App)
    requires Revoke(r, app).1.Ok?
    ensures var n := Revoke(r, app).0;
      && n.generation == r.generation + 1 && n.entries.Keys == r.entries.Keys
      && n.entries[app].state == Revoked
      && forall other | other in r.entries ::
           && n.entries[other].generation == n.generation
           && n.entries[other].fingerprint == r.entries[other].fingerprint && n.entries[other].notAfter == r.entries[other].notAfter
           && (other != app ==> n.entries[other].state == r.entries[other].state)
  {
  }

  /** After a revocation the certificate is still admitted exactly when another active entry shares its fingerprint. */
  lemma RevokedFingerprintIsDeniedUnlessShared(r: Registry, app: App, now: nat)
    requires Revoke(r, app).1.Ok?
    ensures Allows(Revoke(r, app).0, r.entries[app].fingerprint, now) <==>
      exists other :: other in r.entries && other != app && r.entries[other].fingerprint == r.entries[app].fingerprint
                      && r.entries[other].state == Active && r.entries[other].notAfter > now
  {
    var n, f := Revoke(r, app).0, r.entries[app].fingerprint;
    forall other | other in r.entries
      ensures (n.entries[other].fingerprint == f && n.entries[other].state == Active && n.entries[other].notAfter > now)
         <==> (other != app && r.entries[other].fingerprint == f && r.entries[other].state == Active && r.entries[other].notAfter > now)
    {
    }
  }

  /** Two pending entries may share a fingerprint, both may be activated, and revoking one then denies nothing. */
  lemma SharedFingerprintSurvivesRevocation(a: App, b: App, f: Fingerprint, notAfter: nat, now: nat)
    requires a != b && now < notAfter
    ensures var r1 := Enroll(NEW_REGISTRY, RawCertificate(a, f, notAfter), Pending).0;
      var r2 := Enroll(r1, RawCertificate(b, f, notAfter), Pending).0;
      var r3 := Activate(r2, a, f).0;
      var r4 := Activate(r3, b, f).0;
      Revoke(r4, a).1.Ok? && Allows(Revoke(r4, a).0, f, now)
  {
    var r1 := Enroll(NEW_REGISTRY, RawCertificate(a, f, notAfter), Pending).0;
    assert r1 == Registry(2, map[a := Entry(f, Pending, 2, notAfter)]);
    var r2 := Enroll(r1, RawCertificate(b, f, notAfter), Pending).0;
    assert r2 == Registry(3, r1.entries[b := Entry(f, Pending, 3, notAfter)]);
    var r4 := Activate(Activate(r2, a, f).0, b, f).0;
    var r5 := Revoke(r4, a).0;
    assert b in r5.entries && r5.entries[b] == Entry(f, Active, 4, notAfter);
  }
}
