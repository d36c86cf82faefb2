/** The Relay enrollment fake of src/enrollment.rs: single-use challenges and authorizations that enroll Apps. */
module RelayEnrollment {
  import opened Common
  import opened Bytes
  import opened Allowlist
  import PersistentAllowlist

  const ENROLLMENT_TTL: nat := 300
  const CERTIFICATE_VALIDITY: nat := 90 * 24 * 60 * 60
  const MAX_IDENTITY_BYTES: nat := 128

  /** Challenges and fingerprints are collision-free hashes; each is named by the counter it was minted from. */
  type Challenge = nat

  type AuthorizationId = nat

  type Digest = nat

  datatype EnrollmentError =
    | InvalidChallenge | ChallengeExpired | CsrMismatch | AuthorizationMismatch | AuthorizationUsed
    | InvalidGeneration | InvalidMetadata | Refused(error: AllowlistError)

  datatype Begun = Begun(core: Digest, pairing: Text, target: Text, app: App, configuration: nat, created: nat)

  datatype Authorization = Authorization(
    core: Digest, id: AuthorizationId, pairing: Text, target: Text, app: App, challenge: Challenge, csr: Digest,
    proof: Digest, configuration: nat, expires: nat)

  datatype Submission = Submission(authorization: Authorization, app: App, csr: Digest)

  datatype Issued = Issued(app: App, fingerprint: Fingerprint, serial: nat, generation: nat, notBefore: nat, notAfter: nat)

  datatype Outcome = Enrolled(certificate: Issued, entry: Entry) | Rejected(error: EnrollmentError)

  datatype Enrollment = Enrollment(
    nextCounter: nat, pending: map<Challenge, Begun>, consumed: set<AuthorizationId>, nextSerial: nat, allowlist: Registry)

  const NEW_ENROLLMENT := Enrollment(1, map[], {}, 1, NEW_REGISTRY)

  predicate Printable(b: Byte) {
    32 < b && b != 127
  }

  predicate ValidIdentity(value: Text) {
    0 < |value| <= MAX_IDENTITY_BYTES && forall i | 0 <= i < |value| :: Printable(value[i])
  }

  function Begin(e: Enrollment, core: Digest, pairing: Text, target: Text, app: App, configuration: nat, now: nat)
    : (Enrollment, Result<Challenge, EnrollmentError>)
  {
    if !ValidIdentity(pairing) || !ValidIdentity(target) then (e, Err(InvalidMetadata))
    else if configuration == 0 || now == 0 then (e, Err(InvalidGeneration))
    else if e.nextCounter >= U64_MAX then (e, Err(InvalidChallenge))
    else
      (e.(nextCounter := e.nextCounter + 1,
          pending := e.pending[e.nextCounter := Begun(core, pairing, target, app, configuration, now)]), Ok(e.nextCounter))
  }

  /** A submission exists only for the App and the request that Core authorized. */
  predicate Bound(s: Submission) {
    s.app == s.authorization.app && s.csr == s.authorization.csr
  }

  predicate Timely(b: Begun, now: nat) {
    SaturatingSub(now, b.created) <= ENROLLMENT_TTL
  }

  predicate Matches(b: Begun, s: Submission, now: nat) {
    var a := s.authorization;
    && b.core == a.core && b.pairing == a.pairing && b.target == a.target && b.app == a.app
    && b.configuration == a.configuration && a.expires >= now && a.csr == s.csr && a.proof != 0
  }

  /** The certificate fake: a certificate whose validity overflows still consumes its serial. */
  function Sign(serial: nat, app: App, generation: nat, now: nat): (r: (nat, Result<Issued, EnrollmentError>))
    ensures r.1.Ok? ==> r.1.value.notAfter > now > 0
  {
    if generation == 0 || now == 0 || serial >= U64_MAX then (serial, Err(InvalidMetadata))
    else if now + CERTIFICATE_VALIDITY > U64_MAX then (serial + 1, Err(InvalidMetadata))
    else (serial + 1, Ok(Issued(app, serial, serial, generation, now, now + CERTIFICATE_VALIDITY)))
  }

  function CertificateOf(c: Issued): Certificate
    requires c.notAfter != 0
  {
    RawCertificate(c.app, c.fingerprint, c.notAfter)
  }

  /** The challenge is gone, the authorization is spent, and the App is enrolled or the reason it is not. */
  function EnrollApp(e: Enrollment, s: Submission, now: nat): (Enrollment, Outcome) {
    var (serial, signed) := Sign(e.nextSerial, s.app, e.allowlist.generation, now);
    var counted := e.(nextSerial := serial);
    match signed
    case Err(error) => (counted, Rejected(error))
    case Ok(certificate) =>
      var (registry, result) := Enroll(e.allowlist, CertificateOf(certificate), Active);
      (counted.(allowlist := registry),
       if result.Ok? then Enrolled(certificate, result.value) else Rejected(Refused(result.error)))
  }

  function Accept(e: Enrollment, s: Submission, now: nat): (Enrollment, Outcome) {
    var a := s.authorization;
    if a.challenge !in e.pending then (e, Rejected(InvalidChallenge))
    else
      var begun, answered := e.pending[a.challenge], e.(pending := e.pending - {a.challenge});
      if !Timely(begun, now) then (answered, Rejected(ChallengeExpired))
      else if !Matches(begun, s, now) then (answered, Rejected(AuthorizationMismatch))
      else if a.id in e.consumed then (answered, Rejected(AuthorizationUsed))
      else EnrollApp(answered.(consumed := e.consumed + {a.id}), s, now)
  }

  // ---------------------------------------------------------------- whole runs

  datatype Issuance = Issuance(submission: Submission, at: nat, certificate: Issued, entry: Entry)

  /** The fake with its history: every challenge begun, the challenges answered, the Apps issued. */
  datatype Service = Service(e: Enrollment, begun: map<Challenge, Begun>, answered: seq<Challenge>, issued: seq<Issuance>)

  datatype Op =
    | OpBegin(core: Digest, pairing: Text, target: Text, app: App, configuration: nat, now: nat)
    | OpAccept(submission: Submission, now: nat)
    | OpChange(edit: Edit)

  const NEW_SERVICE := Service(NEW_ENROLLMENT, map[], [], [])

  function StepAccept(w: Service, s: Submission, now: nat): Service {
    var (n, outcome) := Accept(w.e, s, now);
    Service(n, w.begun,
          if outcome == Rejected(InvalidChallenge) then w.answered else w.answered + [s.authorization.challenge],
          if outcome.Enrolled? then w.issued + [Issuance(s, now, outcome.certificate, outcome.entry)] else w.issued)
  }

  /** `OpChange` is any change of the registry made beside the enrollment. */
  function Step(w: Service, op: Op): Service {
    match op
    case OpBegin(core, pairing, target, app, configuration, now) =>
      var (n, result) := Begin(w.e, core, pairing, target, app, configuration, now);
      w.(e := n, begun := if result.Ok? then w.begun[result.value := Begun(core, pairing, target, app, configuration, now)] else w.begun)
    case OpAccept(submission, now) => if Bound(submission) then StepAccept(w, submission, now) else w
    case OpChange(edit) =>
      var edited := Edited(w.e.allowlist, edit);
      if edited.Ok? then w.(e := w.e.(allowlist := edited.value)) else w
  }

  function Run(w: Service, ops: seq<Op>): Service
    decreases |ops|
  {
    if ops == [] then w else Run(Step(w, ops[0]), ops[1..])
  }

  /** What an issuance rests on: its own challenge, answered in time by the matching authorization. */
  predicate Justified(w: Service, i: Issuance) {
    var a := i.submission.authorization;
    && a.challenge in w.begun && a.challenge in w.answered
    && Timely(w.begun[a.challenge], i.at) && Matches(w.begun[a.challenge], i.submission, i.at)
    && a.id in w.e.consumed
    && i.certificate.app == a.app && a.app in w.e.allowlist.entries
    && i.certificate.serial < w.e.nextSerial
  }

  predicate Apart(i: Issuance, j: Issuance) {
    && i.submission.authorization.id != j.submission.authorization.id
    && i.submission.authorization.challenge != j.submission.authorization.challenge
    && i.certificate.app != j.certificate.app
    && i.certificate.serial < j.certificate.serial
  }

  predicate AllApart(issued: seq<Issuance>) {
    forall i, j | 0 <= i < j < |issued| :: Apart(issued[i], issued[j])
  }

  predicate Distinct(answered: seq<Challenge>) {
    forall i, j | 0 <= i < j < |answered| :: answered[i] != answered[j]
  }

  predicate Outstanding(w: Service, c: Challenge)
    requires c in w.e.pending
  {
    c in w.begun && w.begun[c] == w.e.pending[c] && c !in w.answered
  }

  ghost predicate Inv(w: Service) {
    && Allowlist.Bounded(w.e.allowlist)
    && (forall c {:trigger Outstanding(w, c)} | c in w.e.pending :: Outstanding(w, c))
    && (forall c | c in w.begun :: c < w.e.nextCounter)
    && (forall c | c in w.answered :: c in w.begun)
    && (forall c | c in w.begun && c !in w.answered :: c in w.e.pending)
    && Distinct(w.answered)
    && (forall k | 0 <= k < |w.issued| :: Justified(w, w.issued[k]))
    && AllApart(w.issued)
  }

  lemma BeginKeepsInv(w: Service, op: Op)
    requires Inv(w) && op.OpBegin?
    ensures Inv(Step(w, op))
  {
    var n := Step(w, op);
    forall c | c in n.e.pending ensures Outstanding(n, c) {
      if c in w.e.pending { assert Outstanding(w, c); }
    }
    forall k | 0 <= k < |n.issued| ensures Justified(n, n.issued[k]) {
      assert Justified(w, w.issued[k]);
    }
  }

  lemma EditKeepsInv(w: Service, op: Op)
    requires Inv(w) && op.OpChange?
    ensures Inv(Step(w, op))
    ensures Later(w.e.allowlist, Step(w, op).e.allowlist)
  {
    var n := Step(w, op);
    if Edited(w.e.allowlist, op.edit).Ok? {
      EditsGoForward(w.e.allowlist, op.edit);
    } else {
      LaterReflexive(w.e.allowlist);
    }
    forall c | c in n.e.pending ensures Outstanding(n, c) {
      assert Outstanding(w, c);
    }
    forall k | 0 <= k < |n.issued| ensures Justified(n, n.issued[k]) {
      assert Justified(w, w.issued[k]) && EntryKept(w.e.allowlist, n.e.allowlist, w.issued[k].submission.authorization.app);
    }
  }

  /** What an enrollment does: one serial at most, one new active entry exactly when it succeeds. */
  lemma EnrollAppEffect(e: Enrollment, s: Submission, now: nat)
    requires Allowlist.Bounded(e.allowlist)
    ensures var (n, outcome) := EnrollApp(e, s, now);
      && n == e.(nextSerial := n.nextSerial, allowlist := n.allowlist)
      && Allowlist.Bounded(n.allowlist) && Later(e.allowlist, n.allowlist)
      && e.nextSerial <= n.nextSerial
      && (outcome.Rejected? ==> n.allowlist == e.allowlist && outcome.error != InvalidChallenge)
      && (outcome.Enrolled? ==>
            && s.app !in e.allowlist.entries
            && n.allowlist == Registry(e.allowlist.generation + 1, e.allowlist.entries[s.app := outcome.entry])
            && outcome.certificate.app == s.app && outcome.certificate.serial == e.nextSerial < n.nextSerial
            && outcome.entry == Entry(outcome.certificate.fingerprint, Active, outcome.certificate.generation + 1, outcome.certificate.notAfter))
  {
    LaterReflexive(e.allowlist);
    var signed := Sign(e.nextSerial, s.app, e.allowlist.generation, now).1;
    if signed.Ok? {
      var edit := Add(CertificateOf(signed.value), Active);
      if Edited(e.allowlist, edit).Ok? {
        EditsGoForward(e.allowlist, edit);
      }
    }
  }

  /** The two ways an answered challenge ends. */
  lemma AcceptCases(e: Enrollment, s: Submission, now: nat)
    ensures var (n, outcome), a := Accept(e, s, now), s.authorization;
      if a.challenge !in e.pending then n == e && outcome == Rejected(InvalidChallenge)
      else
        var answered := e.(pending := e.pending - {a.challenge});
        if Timely(e.pending[a.challenge], now) && Matches(e.pending[a.challenge], s, now) && a.id !in e.consumed
        then (n, outcome) == EnrollApp(answered.(consumed := e.consumed + {a.id}), s, now)
        else n == answered && outcome.Rejected? && outcome.error != InvalidChallenge
  {
  }

  lemma AnsweredKeepsInv(w: Service, challenge: Challenge, n: Service)
    requires Inv(w) && challenge in w.e.pending
    requires n.begun == w.begun && n.issued == w.issued && n.answered == w.answered + [challenge]
    requires n.e.pending == w.e.pending - {challenge} && n.e.nextCounter == w.e.nextCounter
    requires w.e.consumed <= n.e.consumed && w.e.nextSerial <= n.e.nextSerial
    requires Allowlist.Bounded(n.e.allowlist) && w.e.allowlist.entries.Keys <= n.e.allowlist.entries.Keys
    ensures Inv(n)
  {
    assert Outstanding(w, challenge);
    forall c | c in n.e.pending ensures Outstanding(n, c) {
      assert Outstanding(w, c);
    }
    forall k | 0 <= k < |n.issued| ensures Justified(n, n.issued[k]) {
      assert Justified(w, w.issued[k]);
    }
  }

  lemma IssuedKeepsInv(w: Service, i: Issuance, n: Service)
    requires Inv(w) && n == w.(issued := w.issued + [i]) && Justified(w, i)
    requires forall k | 0 <= k < |w.issued| :: Apart(w.issued[k], i)
    ensures Inv(n)
  {
    forall c | c in n.e.pending ensures Outstanding(n, c) {
      assert Outstanding(w, c);
    }
    forall k | 0 <= k < |n.issued| ensures Justified(n, n.issued[k]) {
      if k < |w.issued| { assert Justified(w, w.issued[k]); }
    }
  }

  lemma AcceptKeepsInv(w: Service, s: Submission, now: nat)
    requires Inv(w) && Bound(s)
    ensures Inv(StepAccept(w, s, now))
    ensures Later(w.e.allowlist, StepAccept(w, s, now).e.allowlist)
  {
    AcceptCases(w.e, s, now);
    LaterReflexive(w.e.allowlist);
    var a, n := s.authorization, StepAccept(w, s, now);
    if a.challenge in w.e.pending {
      assert Outstanding(w, a.challenge);
      EnrollAppEffect(w.e.(pending := w.e.pending - {a.challenge}, consumed := w.e.consumed + {a.id}), s, now);
      KeysKept(w.e.allowlist, n.e.allowlist);
      var before := n.(issued := w.issued);
      AnsweredKeepsInv(w, a.challenge, before);
      if n.issued != w.issued {
        var i := n.issued[|w.issued|];
        forall k | 0 <= k < |w.issued| ensures Apart(w.issued[k], i) {
          assert Justified(w, w.issued[k]);
        }
        IssuedKeepsInv(before, i, n);
      }
    }
  }

  lemma KeysKept(r: Registry, s: Registry)
    requires Later(r, s)
    ensures r.entries.Keys <= s.entries.Keys
  {
    forall app | app in r.entries ensures app in s.entries {
      assert EntryKept(r, s, app);
    }
  }

  lemma StepKeepsInv(w: Service, op: Op)
    requires Inv(w)
    ensures Inv(Step(w, op)) && Later(w.e.allowlist, Step(w, op).e.allowlist)
  {
    LaterReflexive(w.e.allowlist);
    match op
    case OpBegin(_, _, _, _, _, _) => BeginKeepsInv(w, op);
    case OpAccept(s, now) => if Bound(s) { AcceptKeepsInv(w, s, now); }
    case OpChange(_) => EditKeepsInv(w, op);
  }

  lemma {:induction false} RunKeepsInv(w: Service, ops: seq<Op>)
    requires Inv(w)
    ensures Inv(Run(w, ops)) && Later(w.e.allowlist, Run(w, ops).e.allowlist)
    decreases |ops|
  {
    if ops == [] {
      LaterReflexive(w.e.allowlist);
    } else {
      var n := Step(w, ops[0]);
      StepKeepsInv(w, ops[0]);
      RunKeepsInv(n, ops[1..]);
      LaterTransitive(w.e.allowlist, n.e.allowlist, Run(n, ops[1..]).e.allowlist);
    }
  }

  /** Every challenge is answered at most once, whatever the answer was. */
  lemma ChallengesAreSingleUse(ops: seq<Op>)
    ensures Distinct(Run(NEW_SERVICE, ops).answered)
  {
    RunKeepsInv(NEW_SERVICE, ops);
  }

  /** No authorization, challenge or App is issued for twice, and serials rise. */
  lemma AuthorizationsIssueOnce(ops: seq<Op>)
    ensures AllApart(Run(NEW_SERVICE, ops).issued)
  {
    RunKeepsInv(NEW_SERVICE, ops);
  }

  /** Every issued App answered a challenge begun for exactly its Core, profile, target, App and generation, in time. */
  lemma IssuancesAreJustified(ops: seq<Op>, k: nat)
    requires k < |Run(NEW_SERVICE, ops).issued|
    ensures var w := Run(NEW_SERVICE, ops);
      var i := w.issued[k];
      var a := i.submission.authorization;
      && a.challenge in w.begun
      && var b := w.begun[a.challenge];
      && a.core == b.core && a.pairing == b.pairing && a.target == b.target && a.app == b.app && a.configuration == b.configuration
      && i.submission.csr == a.csr && a.proof != 0 && i.at <= a.expires && i.at <= b.created + ENROLLMENT_TTL
      && i.certificate.app == a.app
  {
    RunKeepsInv(NEW_SERVICE, ops);
    assert Justified(Run(NEW_SERVICE, ops), Run(NEW_SERVICE, ops).issued[k]);
  }

  /** The submission repeats what the challenge was begun for, with a proof and before Core's deadline. */
  predicate Repeats(b: Begun, a: Authorization, now: nat) {
    && (a.core, a.pairing, a.target, a.app, a.configuration) == (b.core, b.pairing, b.target, b.app, b.configuration)
    && a.proof != 0 && now <= a.expires
  }

  /** What a submission is answered, from the challenges begun and answered before; only the last case may enroll. */
  predicate AnsweredBy(w: Service, s: Submission, now: nat, outcome: Outcome) {
    var a := s.authorization;
    if a.challenge !in w.begun || a.challenge in w.answered then outcome == Rejected(InvalidChallenge)
    else if now > w.begun[a.challenge].created + ENROLLMENT_TTL then outcome == Rejected(ChallengeExpired)
    else if !Repeats(w.begun[a.challenge], a, now) then outcome == Rejected(AuthorizationMismatch)
    else if a.id in w.e.consumed then outcome == Rejected(AuthorizationUsed)
    else outcome.Enrolled? || outcome == Rejected(InvalidMetadata) || outcome.error.Refused?
  }

  lemma SubmissionsAreAnswered(ops: seq<Op>, s: Submission, now: nat)
    requires Bound(s)
    ensures AnsweredBy(Run(NEW_SERVICE, ops), s, now, Accept(Run(NEW_SERVICE, ops).e, s, now).1)
  {
    RunKeepsInv(NEW_SERVICE, ops);
    var w, c := Run(NEW_SERVICE, ops), s.authorization.challenge;
    if c in w.e.pending { assert Outstanding(w, c); }
  }

  /** What enrolls: the App is new, no active entry has the fingerprint, and nothing overflows. */
  lemma EnrolledExactlyWhenNew(ops: seq<Op>, s: Submission, now: nat)
    requires Bound(s)
    requires var w := Run(NEW_SERVICE, ops);
      var a := s.authorization;
      && a.challenge in w.begun && a.challenge !in w.answered && now <= w.begun[a.challenge].created + ENROLLMENT_TTL
      && Repeats(w.begun[a.challenge], a, now) && a.id !in w.e.consumed
    ensures var w := Run(NEW_SERVICE, ops);
      Accept(w.e, s, now).1.Enrolled? <==>
        && now != 0 && w.e.nextSerial < U64_MAX && now + CERTIFICATE_VALIDITY <= U64_MAX && w.e.allowlist.generation < U64_MAX
        && s.app !in w.e.allowlist.entries && !HasActive(w.e.allowlist, w.e.nextSerial)
  {
    RunKeepsInv(NEW_SERVICE, ops);
    var w, c := Run(NEW_SERVICE, ops), s.authorization.challenge;
    assert Outstanding(w, c);
  }

  /** A revoked App is never enrolled again: its entry stays revoked and any later submission for it is refused. */
  lemma RevokedAppsNeverReturn(w: Service, ops: seq<Op>, app: App, s: Submission, now: nat)
    requires Inv(w) && app in w.e.allowlist.entries && w.e.allowlist.entries[app].state == Revoked
    requires Bound(s) && s.app == app
    ensures var n := Run(w, ops);
      && app in n.e.allowlist.entries && n.e.allowlist.entries[app].state == Revoked
      && Accept(n.e, s, now).1.Rejected?
  {
    RunKeepsInv(w, ops);
    var n := Run(w, ops);
    assert EntryKept(w.e.allowlist, n.e.allowlist, app);
    AcceptCases(n.e, s, now);
    var a := s.authorization;
    EnrollAppEffect(n.e.(pending := n.e.pending - {a.challenge}, consumed := n.e.consumed + {a.id}), s, now);
  }

  /** The certificate carries the registry generation before its own enrollment, one below its entry's. */
  lemma CertificateGenerationTrailsEntry(e: Enrollment, s: Submission, now: nat)
    requires Allowlist.Bounded(e.allowlist) && Accept(e, s, now).1.Enrolled?
    ensures var (n, outcome) := Accept(e, s, now);
      outcome.certificate.generation + 1 == outcome.entry.generation == n.allowlist.generation
  {
    AcceptCases(e, s, now);
    var a := s.authorization;
    EnrollAppEffect(e.(pending := e.pending - {a.challenge}, consumed := e.consumed + {a.id}), s, now);
  }

  /** A submission that matches but cannot be enrolled has spent its authorization: a new challenge does not revive it. */
  lemma FailedEnrollmentSpendsAuthorization(e: Enrollment, s: Submission, now: nat, retry: Submission, later: nat)
    requires Allowlist.Bounded(e.allowlist) && s.authorization.challenge in e.pending
    requires Timely(e.pending[s.authorization.challenge], now) && Matches(e.pending[s.authorization.challenge], s, now)
    requires retry.authorization.id == s.authorization.id
    ensures Accept(Accept(e, s, now).0, retry, later).1.Rejected?
  {
    AcceptCases(e, s, now);
    var a := s.authorization;
    EnrollAppEffect(e.(pending := e.pending - {a.challenge}, consumed := e.consumed + {a.id}), s, now);
    assert a.id in Accept(e, s, now).0.consumed;
    AcceptCases(Accept(e, s, now).0, retry, later);
  }

  // ---------------------------------------------------------------- updated in place

  class FakeCertificateAuthority {
    var nextSerial: nat

    constructor ()
      ensures nextSerial == 1
    {
      nextSerial := 1;
    }

    method Issue(app: App, generation: nat, now: nat) returns (result: Result<Issued, EnrollmentError>)
      modifies this
      ensures (nextSerial, result) == Sign(old(nextSerial), app, generation, now)
    {
      if generation == 0 || now == 0 {
        return Err(InvalidMetadata);
      }
      var serial := nextSerial;
      var next := CheckedAdd(serial, 1);
      if next.None? {
        return Err(InvalidMetadata);
      }
      nextSerial := next.value;
      var notAfter := CheckedAdd(now, CERTIFICATE_VALIDITY);
      if notAfter.None? {
        return Err(InvalidMetadata);
      }
      return Ok(Issued(app, serial, serial, generation, now, notAfter.value));
    }
  }

  class FakeRelayEnrollment {
    var nextCounter: nat
    var pending: map<Challenge, Begun>
    var consumed: set<AuthorizationId>
    const authority: FakeCertificateAuthority
    const allowlist: PersistentAllowlist.AllowlistRegistry

    ghost function Model(): Enrollment
      reads this, authority, allowlist
    {
      Enrollment(nextCounter, pending, consumed, authority.nextSerial, allowlist.Model())
    }

    constructor ()
      ensures Model() == NEW_ENROLLMENT && fresh(authority) && fresh(allowlist)
    {
      nextCounter, pending, consumed := 1, map[], {};
      authority := new FakeCertificateAuthority();
      allowlist := new PersistentAllowlist.AllowlistRegistry(NEW_REGISTRY);
    }

    method BeginChallenge(core: Digest, pairing: Text, target: Text, app: App, configuration: nat, now: nat)
      returns (result: Result<Challenge, EnrollmentError>)
      modifies this
      ensures (Model(), result) == Begin(old(Model()), core, pairing, target, app, configuration, now)
    {
      if !ValidIdentity(pairing) || !ValidIdentity(target) {
        return Err(InvalidMetadata);
      }
      if configuration == 0 || now == 0 {
        return Err(InvalidGeneration);
      }
      var counter := nextCounter;
      var next := CheckedAdd(counter, 1);
      if next.None? {
        return Err(InvalidChallenge);
      }
      nextCounter := next.value;
      pending := pending[counter := Begun(core, pairing, target, app, configuration, now)];
      return Ok(counter);
    }

    method AcceptSubmission(s: Submission, now: nat) returns (outcome: Outcome)
      modifies this, authority, allowlist
      ensures (Model(), outcome) == Accept(old(Model()), s, now)
    {
      var a := s.authorization;
      if a.challenge !in pending {
        return Rejected(InvalidChallenge);
      }
      var begun := pending[a.challenge];
      pending := pending - {a.challenge};
      if SaturatingSub(now, begun.created) > ENROLLMENT_TTL {
        return Rejected(ChallengeExpired);
      }
      if !Matches(begun, s, now) {
        return Rejected(AuthorizationMismatch);
      }
      if a.id in consumed {
        return Rejected(AuthorizationUsed);
      }
      consumed := consumed + {a.id};
      outcome := IssueAndEnroll(s, now);
    }

    method IssueAndEnroll(s: Submission, now: nat) returns (outcome: Outcome)
      modifies authority, allowlist
      ensures (Model(), outcome) == EnrollApp(old(Model()), s, now)
    {
      var certificate := authority.Issue(s.app, allowlist.generation, now);
      if certificate.Err? {
        return Rejected(certificate.error);
      }
      var entry := allowlist.EnrollWithState(CertificateOf(certificate.value), Active);
      return if entry.Ok? then Enrolled(certificate.value, entry.value) else Rejected(Refused(entry.error));
    }
  }
}
