/** What the issuance transactions answer: to whom, with what, and where every record on file came from. */
module IssuanceAnswers {
  import opened Common
  import opened Issuance
  import opened IssuanceRuns

  /** The record carries this certificate chain, fingerprint, allowlist generation and expiry, and no rejection. */
  predicate Carries(r: Record, m: Material) {
    r.chain == m.chain && r.fingerprint == Some(m.fingerprint) && r.allowlist == Some(m.allowlist) && r.notAfter == Some(m.notAfter)
    && r.rejection.None?
  }

  ghost function EditAnswer(file: seq<Record>, op: Op): Result<Record, IssuanceError>
    requires op.OpEdit?
  {
    EditRecord(file, op.key, op.edit, op.now, op.fault).1
  }

  /** What a caller may conclude from `Ok(r)`. */
  predicate Says(r: Record, edit: Edit) {
    match edit
    case Attach(m) => r.status != Rejected && Carries(r, m)
    case MarkIssued(m) => r.status == Issued && Carries(r, m)
    case MarkRejected(code) => (r.status == Rejected && r.rejection == Some(code) && r.chain == []) || r.status == Issued
  }

  /** When an unexpired record under the key takes the edit. */
  predicate Takes(r: Record, edit: Edit, now: nat) {
    match edit
    case Attach(m) => (r.status == Pending && r.chain == []) || (r.status != Rejected && Carries(r, m))
    case MarkIssued(m) => (r.status == Pending && now + RESULT_TTL <= U64_MAX) || (r.status == Issued && Carries(r, m))
    case MarkRejected(code) =>
      (r.status == Pending && now + RESULT_TTL <= U64_MAX) || r.status == Issued || (r.status == Rejected && r.rejection == Some(code))
  }

  /** Valid in itself: the chain and metadata, or the code. */
  predicate ValidEdit(edit: Edit) {
    match edit
    case Attach(m) => ValidChain(m.chain) && m.fingerprint != 0 && m.allowlist != 0 && m.notAfter != 0
    case MarkIssued(m) => ValidChain(m.chain) && m.fingerprint != 0 && m.allowlist != 0 && m.notAfter != 0
    case MarkRejected(code) => code != 0
  }

  lemma ValidEditsAreTaken(edit: Edit)
    ensures EditRefusal(edit).None? <==> ValidEdit(edit)
  {
  }

  /** Whether this edit of this record must write the file. */
  predicate Done(r: Record, edit: Edit) {
    match edit
    case Attach(m) => r.chain != []
    case MarkIssued(m) => r.status != Pending
    case MarkRejected(code) => r.status != Pending
  }

  lemma ChangeAnswers(r: Record, edit: Edit, now: nat)
    requires ValidRecord(r)
    ensures var change := ChangeOf(r, edit, now);
      && (!change.Refuse? <==> Takes(r, edit, now))
      && (change.Keep? ==> Says(r, edit))
      && (change.Apply? ==> Says(change.record, edit) && change.record.key == r.key)
      && (change.Apply? <==> Takes(r, edit, now) && !Done(r, edit))
  {
  }

  /**
   * On any file, whatever it holds: an edit answered with a record says what was asked of it. An issued
   * record carries exactly the material, an attached one too, and a rejection has the code unless the
   * result was issued before.
   */
  lemma EditsSayWhatTheyAnswer(file: seq<Record>, op: Op)
    requires op.OpEdit?
    ensures var answer := EditAnswer(file, op);
      answer.Ok? ==> answer.value.key == op.key && Says(answer.value, op.edit)
  {
    if EditAnswer(file, op).Ok? {
      var pruned := Prune(file, op.now);
      PruneKeeps(file, op.now);
      var i := IndexOf(pruned, op.key);
      assert pruned[i] in file;
      ChangeAnswers(pruned[i], op.edit, op.now);
    }
  }

  // ---------------------------------------------------------------- exactly when, and otherwise why not

  /** Why an unexpired record under the key does not take the edit, when it does not. */
  function Refused(r: Record, edit: Edit): IssuanceError {
    match edit
    case Attach(_) => if r.status == Rejected then TerminallyRejected else AlreadyAttached
    case MarkIssued(_) =>
      if r.status == Rejected then TerminallyRejected else if r.status == Issued then AlreadyFinalized else RetentionOverflow
    case MarkRejected(_) => if r.status == Rejected then OtherCode else RetentionOverflow
  }

  lemma ChangeRefuses(r: Record, edit: Edit, now: nat)
    requires ValidRecord(r) && !Takes(r, edit, now)
    ensures ChangeOf(r, edit, now) == Refuse(Refused(r, edit))
  {
  }

  /** The unexpired record under the key is the one the transaction finds. */
  lemma FoundUnderKey(file: seq<Record>, r: Record, now: nat)
    requires ValidFile(file) && r in file && r.retained > now
    ensures var pruned := Prune(file, now);
      IndexOf(pruned, r.key) < |pruned| && pruned[IndexOf(pruned, r.key)] == r
  {
    var pruned := Prune(file, now);
    PruneKeeps(file, now);
    var i := IndexOf(pruned, r.key);
    var j :| 0 <= j < |pruned| && pruned[j] == r;
    assert pruned[j].key == r.key;
    assert i < |pruned| && pruned[i] in file;
    var a :| 0 <= a < |file| && file[a] == pruned[i];
    var b :| 0 <= b < |file| && file[b] == r;
    assert a == b;
  }

  predicate Loads(fault: Fault) {
    fault != LockFails && fault != ReadFails
  }

  /** The answer to a valid edit of the unexpired record `r`. */
  predicate AnswersFor(file: seq<Record>, r: Record, op: Op, after: seq<Record>, answer: Result<Record, IssuanceError>)
    requires op.OpEdit?
  {
    if !Takes(r, op.edit, op.now) then answer == Err(Refused(r, op.edit)) && after == file
    else if Done(r, op.edit) then answer == Ok(r) && after == file
    else if op.fault == WriteFails then answer == Err(ConfigurationRead) && after == file
    else answer.Ok? && answer.value in after && Says(answer.value, op.edit) && answer.value.key == r.key
  }

  lemma EditOfFound(file: seq<Record>, r: Record, op: Op)
    requires op.OpEdit? && ValidFile(file) && Loads(op.fault) && ValidEdit(op.edit) && r in file && r.key == op.key && r.retained > op.now
    ensures var (after, answer) := EditRecord(file, op.key, op.edit, op.now, op.fault);
      AnswersFor(file, r, op, after, answer)
  {
    var pruned := Prune(file, op.now);
    var i := IndexOf(pruned, op.key);
    FoundUnderKey(file, r, op.now);
    ValidEditsAreTaken(op.edit);
    FoundEdit(file, op.key, op.edit, op.now, op.fault, i);
    ChangeAnswers(r, op.edit, op.now);
    if Takes(r, op.edit, op.now) {
      var change := ChangeOf(r, op.edit, op.now);
      if change.Apply? { assert pruned[i := change.record][i] == change.record; }
    } else {
      ChangeRefuses(r, op.edit, op.now);
    }
  }

  /**
   * After any run a valid edit of a record in retention is answered with it exactly when the record takes
   * the edit and, unless it was done before, the write succeeds; otherwise with the reason, and the file
   * stays as it was.
   */
  lemma EditsAreAnsweredExactlyWhenTaken(ops: seq<Op>, r: Record, op: Op)
    requires op.OpEdit? && Loads(op.fault) && ValidEdit(op.edit)
    requires r in Run(EMPTY_WORLD, ops).file && r.key == op.key && r.retained > op.now
    ensures var w := Run(EMPTY_WORLD, ops);
      AnswersFor(w.file, r, op, Step(w, op).file, EditAnswer(w.file, op))
  {
    RunKeepsFile(EMPTY_WORLD, ops);
    EditOfFound(Run(EMPTY_WORLD, ops).file, r, op);
  }

  // ---------------------------------------------------------------- repeated and later edits

  /** A reported edit leaves the record it answered with on file, in retention. */
  lemma ReportedIsOnFile(file: seq<Record>, op: Op)
    requires op.OpEdit? && EditAnswer(file, op).Ok?
    ensures EditAnswer(file, op).value in EditRecord(file, op.key, op.edit, op.now, op.fault).0
    ensures EditAnswer(file, op).value.retained > op.now
  {
    var pruned := Prune(file, op.now);
    PruneKeeps(file, op.now);
    var i := IndexOf(pruned, op.key);
    assert pruned[i] in pruned && pruned[i] in file;
    var change := ChangeOf(pruned[i], op.edit, op.now);
    if change.Apply? { assert pruned[i := change.record][i] == change.record; }
  }

  lemma AfterReported(w: World, op: Op, later: seq<Op>)
    requires op.OpEdit? && FileInv(w.file) && EditAnswer(w.file, op).Ok? && EditAnswer(w.file, op).value.status != Pending
    requires forall i | 0 <= i < |later| :: later[i].now < EditAnswer(w.file, op).value.retained
    ensures EditAnswer(w.file, op).value in Run(Step(w, op), later).file && ValidFile(Run(Step(w, op), later).file)
  {
    ReportedIsOnFile(w.file, op);
    StepKeepsFile(w, op);
    RunKeepsFile(Step(w, op), later);
    TerminalRecordsStay(Step(w, op), later, EditAnswer(w.file, op).value);
  }

  /**
   * Once a result is reported as issued or rejected, every later edit of it inside its retention, whatever
   * ran in between, is answered by that result: a repeated call with the same record, any other with its
   * refusal. A rejection after an issuance is answered with the issued record.
   */
  lemma FinalResultsAnswerForGood(before: seq<Op>, first: Op, later: seq<Op>, again: Op)
    requires first.OpEdit? && again.OpEdit? && again.key == first.key && Loads(again.fault) && ValidEdit(again.edit)
    requires var answer := EditAnswer(Run(EMPTY_WORLD, before).file, first);
      && answer.Ok? && answer.value.status != Pending && again.now < answer.value.retained
      && forall i | 0 <= i < |later| :: later[i].now < answer.value.retained
    ensures var w := Run(EMPTY_WORLD, before);
      var r := EditAnswer(w.file, first).value;
      EditAnswer(Run(Step(w, first), later).file, again)
        == if Takes(r, again.edit, again.now) then Ok(r) else Err(Refused(r, again.edit))
    ensures again.edit == first.edit ==>
      EditAnswer(Run(Step(Run(EMPTY_WORLD, before), first), later).file, again) == EditAnswer(Run(EMPTY_WORLD, before).file, first)
  {
    var w := Run(EMPTY_WORLD, before);
    var r := EditAnswer(w.file, first).value;
    RunKeepsFile(EMPTY_WORLD, before);
    AfterReported(w, first, later);
    EditsSayWhatTheyAnswer(w.file, first);
    FinalIsDone(r, again.edit);
    EditOfFound(Run(Step(w, first), later).file, r, again);
  }

  lemma FinalIsDone(r: Record, edit: Edit)
    requires ValidRecord(r) && r.status != Pending
    ensures Done(r, edit) || (edit.Attach? && r.status == Rejected)
  {
  }

  /** A candidate once attached is answered to a repetition, and any other candidate is refused. */
  lemma AttachedCandidateAnswers(before: seq<Op>, first: Op, again: Op)
    requires first.OpEdit? && again.OpEdit? && again.key == first.key && Loads(again.fault) && ValidEdit(again.edit)
    requires first.edit.Attach? && again.edit.Attach?
    requires EditAnswer(Run(EMPTY_WORLD, before).file, first).Ok?
    requires again.now < EditAnswer(Run(EMPTY_WORLD, before).file, first).value.retained
    ensures var w := Run(EMPTY_WORLD, before);
      EditAnswer(Step(w, first).file, again)
        == if again.edit.material == first.edit.material then EditAnswer(w.file, first) else Err(AlreadyAttached)
  {
    var w := Run(EMPTY_WORLD, before);
    var r := EditAnswer(w.file, first).value;
    RunKeepsFile(EMPTY_WORLD, before);
    StepKeepsFile(w, first);
    FileInvIsValid(Step(w, first).file);
    ReportedIsOnFile(w.file, first);
    EditsSayWhatTheyAnswer(w.file, first);
    EditOfFound(Step(w, first).file, r, again);
  }

  // ---------------------------------------------------------------- begins

  /**
   * On any file a begin is answered only with a record of its App, key and generation, for an authorization
   * that has not expired and lasts five minutes at most: one retained before, or a new pending one when no
   * record of the authorization is retained.
   */
  lemma BeginsAnswerTheirOwn(file: seq<Record>, op: Op)
    requires op.OpBegin?
    ensures var answer := BeginPending(file, op.key, op.app, op.configuration, op.expires, op.now, op.fault).1;
      answer.Ok? ==>
        var r := answer.value.record;
        && r.key == op.key && r.app == op.app && r.configuration == Some(op.configuration)
        && op.key.auth != 0 && op.key.csr != 0 && op.configuration != 0 && op.now < op.expires <= op.now + MAX_AUTHORIZATION_TTL
        && match answer.value
           case Existing(_) => r in file && r.retained > op.now
           case Created(_) =>
             && r.status == Pending && r.chain == [] && r.expires == op.expires && r.retained == op.expires + RESULT_TTL
             && forall other | other in file && other.key.auth == op.key.auth :: other.retained <= op.now
  {
    var pruned := Prune(file, op.now);
    PruneKeeps(file, op.now);
    var i := IndexOf(pruned, op.key);
    if i < |pruned| {
      assert pruned[i] in pruned;
    } else {
      forall other | other in file && other.key.auth == op.key.auth && other.retained > op.now ensures MentionsAuth(pruned, op.key.auth) {
        var j :| 0 <= j < |pruned| && pruned[j] == other;
        assert pruned[j].key.auth == op.key.auth;
      }
    }
  }

  lemma NoOtherKey(records: seq<Record>, j: nat, key: Key)
    requires DistinctAuths(records) && j < |records| && records[j].key.auth == key.auth
    ensures IndexOf(records, key) < |records| <==> records[j].key == key
    ensures MentionsAuth(records, key.auth)
  {
  }

  /** An authorization retained for another CSR, App or generation is refused, and the file stays as it was. */
  lemma ForeignBeginsAreRefused(ops: seq<Op>, r: Record, op: Op)
    requires op.OpBegin? && Loads(op.fault) && BeginRefusal(op.key, op.app, op.configuration, op.expires, op.now).None?
    requires r in Run(EMPTY_WORLD, ops).file && r.key.auth == op.key.auth && r.retained > op.now
    requires r.key != op.key || r.app != op.app || r.configuration != Some(op.configuration)
    ensures var file := Run(EMPTY_WORLD, ops).file;
      BeginPending(file, op.key, op.app, op.configuration, op.expires, op.now, op.fault)
        == (file, Err(if r.key != op.key then BoundToAnotherCsr else if r.app != op.app then AppMismatch else GenerationMismatch))
  {
    RunKeepsFile(EMPTY_WORLD, ops);
    var file := Run(EMPTY_WORLD, ops).file;
    var pruned := Prune(file, op.now);
    FoundUnderKey(file, r, op.now);
    PruneKeeps(file, op.now);
    var j := IndexOf(pruned, r.key);
    assert pruned[j].key.auth == op.key.auth;
    NoOtherKey(pruned, j, op.key);
  }

  // ---------------------------------------------------------------- where records come from

  predicate BegunBy(op: Op, r: Record) {
    op.OpBegin? && op.key == r.key && op.app == r.app && Some(op.configuration) == r.configuration && op.expires == r.expires
  }

  /** The edit that made a record what it is; a pending record without a chain needs none. */
  predicate EditedBy(op: Op, r: Record) {
    && op.OpEdit? && op.key == r.key
    && match r.status
       case Issued => op.edit.MarkIssued? && Carries(r, op.edit.material) && r.retained == op.now + RESULT_TTL
       case Rejected => op.edit.MarkRejected? && r.rejection == Some(op.edit.code) && r.retained == op.now + RESULT_TTL
       case Pending => op.edit.Attach? && Carries(r, op.edit.material) && r.retained == r.expires + RESULT_TTL
  }

  predicate Originates(ops: seq<Op>, r: Record) {
    && (exists op :: op in ops && BegunBy(op, r))
    && ((r.status == Pending && r.chain == [] && r.retained == r.expires + RESULT_TTL) || exists op :: op in ops && EditedBy(op, r))
  }

  predicate AllOriginate(ops: seq<Op>, file: seq<Record>) {
    forall r | r in file :: Originates(ops, r)
  }

  lemma LaterOriginates(ops: seq<Op>, op: Op, r: Record)
    requires Originates(ops, r)
    ensures Originates(ops + [op], r)
  {
    var b :| b in ops && BegunBy(b, r);
    assert b in ops + [op];
    if !(r.status == Pending && r.chain == [] && r.retained == r.expires + RESULT_TTL) {
      var e :| e in ops && EditedBy(e, r);
      assert e in ops + [op];
    }
  }

  lemma ChangeOriginates(ops: seq<Op>, r: Record, op: Op)
    requires op.OpEdit? && op.key == r.key && ValidRecord(r) && Originates(ops, r)
    requires ValidEdit(op.edit) && ChangeOf(r, op.edit, op.now).Apply?
    ensures Originates(ops + [op], ChangeOf(r, op.edit, op.now).record)
  {
    var changed := ChangeOf(r, op.edit, op.now).record;
    LaterOriginates(ops, op, r);
    var b :| b in ops && BegunBy(b, r);
    assert b in ops + [op] && BegunBy(b, changed);
    PendingRetention(ops, r);
    assert op in ops + [op] && EditedBy(op, changed);
  }

  lemma PendingRetention(ops: seq<Op>, r: Record)
    requires Originates(ops, r) && r.status == Pending
    ensures r.retained == r.expires + RESULT_TTL
  {
  }

  lemma EditOriginates(w: World, op: Op, before: seq<Op>)
    requires op.OpEdit? && AllOriginate(before, w.file)
    ensures forall r | r in Step(w, op).file :: r in w.file || Originates(before + [op], r)
  {
    PruneKeeps(w.file, op.now);
    EditWrites(w.file, op);
    ValidEditsAreTaken(op.edit);
    var pruned := Prune(w.file, op.now);
    if Step(w, op).file != w.file {
      var i := IndexOf(pruned, op.key);
      assert pruned[i] in pruned && pruned[i] in w.file;
      ChangeOriginates(before, pruned[i], op);
    }
  }

  lemma StepOriginates(w: World, op: Op, before: seq<Op>)
    requires AllOriginate(before, w.file)
    ensures AllOriginate(before + [op], Step(w, op).file)
  {
    PruneKeeps(w.file, op.now);
    forall r | r in w.file ensures Originates(before + [op], r) {
      LaterOriginates(before, op, r);
    }
    match op
    case OpQuery(_, _) =>
    case OpBegin(key, app, configuration, expires, _, _) =>
      BeginWrites(w.file, op);
      assert op in before + [op] && BegunBy(op, NewRecord(key, app, configuration, expires));
    case OpEdit(_, _, _, _) => EditOriginates(w, op, before);
  }

  lemma {:induction false} RunOriginates(w: World, ops: seq<Op>, before: seq<Op>)
    requires AllOriginate(before, w.file)
    ensures AllOriginate(before + ops, Run(w, ops).file)
    decreases |ops|
  {
    if ops == [] {
      assert before + ops == before;
    } else {
      StepOriginates(w, ops[0], before);
      RunOriginates(Step(w, ops[0]), ops[1..], before + [ops[0]]);
      assert before + [ops[0]] + ops[1..] == before + ops;
    }
  }

  /**
   * After any run every record on file was begun by an earlier call, with its App, key, generation and
   * expiry, and has its material or code, and its retention, from an earlier call for its key.
   */
  lemma RecordsComeFromCalls(ops: seq<Op>)
    ensures AllOriginate(ops, Run(EMPTY_WORLD, ops).file)
  {
    RunOriginates(EMPTY_WORLD, ops, []);
    assert [] + ops == ops;
  }
}
