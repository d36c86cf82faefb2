/** Whole runs of issuance transactions by any number of handles over one file. */
module IssuanceRuns {
  import opened Common
  import opened Bytes
  import opened Issuance

  // ---------------------------------------------------------------- the file invariant

  predicate DistinctAuths(records: seq<Record>) {
    forall i, j | 0 <= i < j < |records| :: records[i].key.auth != records[j].key.auth
  }

  /** Valid and created here, which binds it to a generation. */
  predicate Sound(r: Record) {
    ValidRecord(r) && r.configuration.Some?
  }

  predicate AllSound(records: seq<Record>) {
    forall i | 0 <= i < |records| :: Sound(records[i])
  }

  predicate FileInv(records: seq<Record>) {
    |records| <= MAX_RECORDS && DistinctAuths(records) && AllSound(records)
  }

  lemma FileInvIsValid(records: seq<Record>)
    requires FileInv(records)
    ensures ValidFile(records)
  {
    forall i | 0 <= i < |records| ensures ValidRecord(records[i]) {
      assert Sound(records[i]);
    }
  }

  /** Pruning keeps, in order, exactly the records whose retention has not ended. */
  lemma {:induction false} PruneKeeps(records: seq<Record>, now: nat)
    ensures |Prune(records, now)| <= |records|
    ensures forall r :: r in Prune(records, now) <==> r in records && r.retained > now
    ensures DistinctAuths(records) ==> DistinctAuths(Prune(records, now))
  {
    if records != [] {
      var front, last := records[..|records| - 1], records[|records| - 1];
      PruneKeeps(front, now);
      assert records == front + [last];
      if DistinctAuths(records) && last.retained > now {
        assert forall r | r in Prune(front, now) :: r in front && r.key.auth != last.key.auth;
      }
    }
  }

  lemma PruneKeepsInv(records: seq<Record>, now: nat)
    requires FileInv(records)
    ensures FileInv(Prune(records, now))
  {
    PruneKeeps(records, now);
    forall i | 0 <= i < |Prune(records, now)| ensures Sound(Prune(records, now)[i]) {
      assert Prune(records, now)[i] in records;
    }
  }

  // ---------------------------------------------------------------- each transaction keeps it

  lemma AppendKeepsInv(records: seq<Record>, r: Record)
    requires FileInv(records) && |records| < MAX_RECORDS && !MentionsAuth(records, r.key.auth) && Sound(r)
    ensures FileInv(records + [r])
  {
  }

  lemma NewRecordIsSound(key: Key, app: Text, configuration: nat, expires: nat, now: nat)
    requires BeginRefusal(key, app, configuration, expires, now).None?
    ensures Sound(NewRecord(key, app, configuration, expires))
  {
  }

  lemma BeginKeepsInv(file: seq<Record>, key: Key, app: Text, configuration: nat, expires: nat, now: nat, fault: Fault)
    requires FileInv(file)
    ensures FileInv(BeginPending(file, key, app, configuration, expires, now, fault).0)
  {
    PruneKeepsInv(file, now);
    if BeginRefusal(key, app, configuration, expires, now).None? {
      NewRecordIsSound(key, app, configuration, expires, now);
      var pruned := Prune(file, now);
      if !MentionsAuth(pruned, key.auth) && |pruned| < MAX_RECORDS {
        AppendKeepsInv(pruned, NewRecord(key, app, configuration, expires));
      }
    }
  }

  lemma AcceptedChainIsValid(chain: seq<Text>)
    requires ChainRefusal(chain).None?
    ensures ValidChain(chain)
  {
  }

  /** An applied change keeps the record's identity and its soundness. */
  lemma ChangeKeepsSound(r: Record, edit: Edit, now: nat)
    requires Sound(r) && EditRefusal(edit).None? && ChangeOf(r, edit, now).Apply?
    ensures Sound(ChangeOf(r, edit, now).record) && ChangeOf(r, edit, now).record.key == r.key
  {
    if !edit.MarkRejected? {
      AcceptedChainIsValid(edit.material.chain);
    }
  }

  lemma EditKeepsInv(file: seq<Record>, key: Key, edit: Edit, now: nat, fault: Fault)
    requires FileInv(file)
    ensures FileInv(EditRecord(file, key, edit, now, fault).0)
  {
    PruneKeepsInv(file, now);
    var pruned := Prune(file, now);
    var i := IndexOf(pruned, key);
    if EditRefusal(edit).None? && i < |pruned| && ChangeOf(pruned[i], edit, now).Apply? {
      ChangeKeepsSound(pruned[i], edit, now);
      ReplaceKeepsInv(pruned, i, ChangeOf(pruned[i], edit, now).record);
    }
  }

  lemma ReplaceKeepsInv(records: seq<Record>, i: nat, r: Record)
    requires FileInv(records) && i < |records| && Sound(r) && r.key == records[i].key
    ensures FileInv(records[i := r])
  {
  }

  // ---------------------------------------------------------------- runs

  datatype Op =
    | OpQuery(now: nat, fault: Fault)
    | OpBegin(key: Key, app: Text, configuration: nat, expires: nat, now: nat, fault: Fault)
    | OpEdit(key: Key, edit: Edit, now: nat, fault: Fault)

  /** A reported creation. */
  datatype Creation = Creation(key: Key, expires: nat)

  /** The file, whichever handles worked on it, and the creations reported so far. */
  datatype World = World(file: seq<Record>, created: seq<Creation>)

  const EMPTY_WORLD := World([], [])

  predicate Creates(file: seq<Record>, op: Op)
    requires op.OpBegin?
  {
    var result := BeginPending(file, op.key, op.app, op.configuration, op.expires, op.now, op.fault).1;
    result.Ok? && result.value.Created?
  }

  function Step(w: World, op: Op): World {
    match op
    case OpQuery(now, fault) => w.(file := Query(w.file, now, fault).0)
    case OpBegin(key, app, configuration, expires, now, fault) =>
      World(BeginPending(w.file, key, app, configuration, expires, now, fault).0,
            if Creates(w.file, op) then w.created + [Creation(key, expires)] else w.created)
    case OpEdit(key, edit, now, fault) => w.(file := EditRecord(w.file, key, edit, now, fault).0)
  }

  function Run(w: World, ops: seq<Op>): World
    decreases |ops|
  {
    if ops == [] then w else Run(Step(w, ops[0]), ops[1..])
  }

  lemma StepKeepsFile(w: World, op: Op)
    requires FileInv(w.file)
    ensures FileInv(Step(w, op).file)
  {
    match op
    case OpQuery(now, fault) => PruneKeepsInv(w.file, now);
    case OpBegin(key, app, configuration, expires, now, fault) =>
      BeginKeepsInv(w.file, key, app, configuration, expires, now, fault);
    case OpEdit(key, edit, now, fault) => EditKeepsInv(w.file, key, edit, now, fault);
  }

  /** Whatever the handles' clocks read, every transaction writes a file that validates and repeats no authorization. */
  lemma {:induction false} RunKeepsFile(w: World, ops: seq<Op>)
    requires FileInv(w.file)
    ensures FileInv(Run(w, ops).file) && ValidFile(Run(w, ops).file)
    decreases |ops|
  {
    if ops == [] {
      FileInvIsValid(w.file);
    } else {
      StepKeepsFile(w, ops[0]);
      RunKeepsFile(Step(w, ops[0]), ops[1..]);
    }
  }

  lemma FileStaysValid(ops: seq<Op>)
    ensures var file := Run(EMPTY_WORLD, ops).file;
      ValidFile(file) && DistinctAuths(file)
  {
    RunKeepsFile(EMPTY_WORLD, ops);
  }

  // ---------------------------------------------------------------- what a transaction may do to a record

  /** A record after a transaction: the same, or a pending one edited without losing its identity or deadline. */
  predicate Evolves(r: Record, s: Record) {
    s == r || (r.status == Pending && s.key == r.key && s.app == r.app && s.expires == r.expires && s.configuration == r.configuration)
  }

  predicate Survives(r: Record, after: seq<Record>) {
    exists s :: s in after && Evolves(r, s)
  }

  /** Unless its retention ended, a record is still there, at most evolved; terminal records are unchanged. */
  predicate Retains(before: seq<Record>, after: seq<Record>, now: nat) {
    forall r | r in before && r.retained > now :: Survives(r, after)
  }

  lemma SameSurvives(r: Record, after: seq<Record>)
    requires r in after
    ensures Survives(r, after)
  {
    assert r in after && Evolves(r, r);
  }

  lemma KeptRetains(before: seq<Record>, after: seq<Record>, now: nat)
    requires forall r | r in before && r.retained > now :: r in after
    ensures Retains(before, after, now)
  {
    forall r | r in before && r.retained > now ensures Survives(r, after) {
      SameSurvives(r, after);
    }
  }

  lemma BeginRetains(file: seq<Record>, op: Op)
    requires op.OpBegin?
    ensures Retains(file, BeginPending(file, op.key, op.app, op.configuration, op.expires, op.now, op.fault).0, op.now)
  {
    var after := BeginPending(file, op.key, op.app, op.configuration, op.expires, op.now, op.fault).0;
    PruneKeeps(file, op.now);
    BeginWrites(file, op);
    KeptRetains(file, after, op.now);
  }

  lemma BeginWrites(file: seq<Record>, op: Op)
    requires op.OpBegin?
    ensures var after, pruned := BeginPending(file, op.key, op.app, op.configuration, op.expires, op.now, op.fault).0, Prune(file, op.now);
      after == file || after == pruned || after == pruned + [NewRecord(op.key, op.app, op.configuration, op.expires)]
  {
  }

  lemma ReplacedRetains(records: seq<Record>, i: nat, changed: Record, now: nat)
    requires i < |records| && Evolves(records[i], changed)
    ensures Retains(records, records[i := changed], now)
  {
    var after := records[i := changed];
    forall r | r in records ensures Survives(r, after) {
      var j :| 0 <= j < |records| && records[j] == r;
      assert after[j] in after && Evolves(r, after[j]);
    }
  }

  lemma EditWrites(file: seq<Record>, op: Op)
    requires op.OpEdit?
    ensures var after, pruned := EditRecord(file, op.key, op.edit, op.now, op.fault).0, Prune(file, op.now);
      var i := IndexOf(pruned, op.key);
      after == file
      || (ValidFile(file) && i < |pruned| && ChangeOf(pruned[i], op.edit, op.now).Apply?
          && after == pruned[i := ChangeOf(pruned[i], op.edit, op.now).record])
  {
  }

  /** An edit of the `i`th unexpired record, once the file is loaded. */
  lemma FoundEdit(file: seq<Record>, key: Key, edit: Edit, now: nat, fault: Fault, i: nat)
    requires Load(file, fault) == Ok(file) && EditRefusal(edit).None?
    requires i == IndexOf(Prune(file, now), key) < |Prune(file, now)|
    ensures var pruned := Prune(file, now);
      EditRecord(file, key, edit, now, fault) ==
        match ChangeOf(pruned[i], edit, now)
        case Refuse(error) => (file, Err(error))
        case Keep => (file, Ok(pruned[i]))
        case Apply(changed) => if fault == WriteFails then (file, Err(ConfigurationRead)) else (pruned[i := changed], Ok(changed))
  {
  }

  /** Only pending records change: a valid issued one has a chain, so that attaching finds it done. */
  lemma ChangeEvolves(r: Record, edit: Edit, now: nat)
    requires ValidRecord(r) && ChangeOf(r, edit, now).Apply?
    ensures r.status == Pending && Evolves(r, ChangeOf(r, edit, now).record)
  {
  }

  lemma EditRetains(file: seq<Record>, op: Op)
    requires op.OpEdit?
    ensures Retains(file, EditRecord(file, op.key, op.edit, op.now, op.fault).0, op.now)
  {
    var after, pruned := EditRecord(file, op.key, op.edit, op.now, op.fault).0, Prune(file, op.now);
    PruneKeeps(file, op.now);
    EditWrites(file, op);
    if after == file {
      KeptRetains(file, after, op.now);
    } else {
      var i := IndexOf(pruned, op.key);
      assert pruned[i] in file;
      ChangeEvolves(pruned[i], op.edit, op.now);
      ReplacedRetains(pruned, i, ChangeOf(pruned[i], op.edit, op.now).record, op.now);
    }
  }

  lemma StepRetains(w: World, op: Op)
    ensures Retains(w.file, Step(w, op).file, op.now)
  {
    if op.OpQuery? {
      PruneKeeps(w.file, op.now);
      KeptRetains(w.file, Step(w, op).file, op.now);
    } else if op.OpBegin? {
      BeginRetains(w.file, op);
    } else {
      EditRetains(w.file, op);
    }
  }

  /** Issued and rejected records never change until they are pruned, in any file at all. */
  lemma TerminalRecordsAreFixed(w: World, op: Op, r: Record)
    requires r in w.file && r.status != Pending && r.retained > op.now
    ensures r in Step(w, op).file
  {
    StepRetains(w, op);
  }

  /** Over any run, an issued or rejected record is found unchanged as long as no transaction reads a clock past its retention. */
  lemma {:induction false} TerminalRecordsStay(w: World, ops: seq<Op>, r: Record)
    requires r in w.file && r.status != Pending && forall i | 0 <= i < |ops| :: ops[i].now < r.retained
    ensures r in Run(w, ops).file
    decreases |ops|
  {
    if ops != [] {
      TerminalRecordsAreFixed(w, ops[0], r);
      TerminalRecordsStay(Step(w, ops[0]), ops[1..], r);
    }
  }

  // ---------------------------------------------------------------- the file as a map

  /** The shared map that the handles' transactions act on. */
  function AsMap(records: seq<Record>): map<AuthId, Record> {
    if records == [] then map[]
    else
      var last := records[|records| - 1];
      AsMap(records[..|records| - 1])[last.key.auth := last]
  }

  lemma {:induction false} AsMapHolds(records: seq<Record>, auth: AuthId)
    requires DistinctAuths(records)
    ensures auth in AsMap(records) <==> MentionsAuth(records, auth)
    ensures forall r | r in records :: r.key.auth in AsMap(records) && AsMap(records)[r.key.auth] == r
    ensures auth in AsMap(records) ==> AsMap(records)[auth] in records && AsMap(records)[auth].key.auth == auth
  {
    if records != [] {
      var front, last := records[..|records| - 1], records[|records| - 1];
      AsMapHolds(front, auth);
      assert records == front + [last];
      if MentionsAuth(front, auth) {
        var i :| 0 <= i < |front| && front[i].key.auth == auth;
        assert records[i].key.auth == auth;
      }
      if auth == last.key.auth {
        assert records[|front|].key.auth == auth;
      }
      forall r | r in records ensures r.key.auth in AsMap(records) && AsMap(records)[r.key.auth] == r {
        if r != last {
          assert r in front;
        }
      }
    }
  }

  /** Pruning is a filter of the map. */
  lemma PruneAsMap(records: seq<Record>, now: nat)
    requires DistinctAuths(records)
    ensures AsMap(Prune(records, now))
         == map auth | auth in AsMap(records) && AsMap(records)[auth].retained > now :: AsMap(records)[auth]
  {
    PruneKeeps(records, now);
    var pruned := Prune(records, now);
    forall auth: AuthId
      ensures auth in AsMap(pruned) <==> (auth in AsMap(records) && AsMap(records)[auth].retained > now)
      ensures auth in AsMap(pruned) ==> auth in AsMap(records) && AsMap(pruned)[auth] == AsMap(records)[auth]
    {
      AsMapHolds(records, auth);
      AsMapHolds(pruned, auth);
    }
  }

  lemma AsMapAppend(records: seq<Record>, last: Record)
    ensures AsMap(records + [last]) == AsMap(records)[last.key.auth := last]
  {
    assert (records + [last])[..|records|] == records;
  }

  /** An applied edit replaces exactly its authorization's record in the pruned map. */
  lemma EditAsMap(records: seq<Record>, i: nat, changed: Record)
    requires DistinctAuths(records) && i < |records| && changed.key == records[i].key
    ensures AsMap(records[i := changed]) == AsMap(records)[changed.key.auth := changed]
  {
    var after := records[i := changed];
    forall auth: AuthId
      ensures auth in AsMap(after) <==> auth in AsMap(records)[changed.key.auth := changed]
      ensures auth in AsMap(after) ==> AsMap(after)[auth] == AsMap(records)[changed.key.auth := changed][auth]
    {
      ReplacedLookup(records, i, changed, auth);
    }
  }

  lemma ReplacedLookup(records: seq<Record>, i: nat, changed: Record, auth: AuthId)
    requires DistinctAuths(records) && i < |records| && changed.key == records[i].key
    ensures var after := records[i := changed];
      && (auth in AsMap(after) <==> auth in AsMap(records))
      && changed.key.auth in AsMap(records)
      && (auth in AsMap(after) ==> AsMap(after)[auth] == if auth == changed.key.auth then changed else AsMap(records)[auth])
  {
    var after := records[i := changed];
    AsMapHolds(records, auth);
    AsMapHolds(after, auth);
    assert records[i] in records && after[i] in after;
    if MentionsAuth(records, auth) {
      var j :| 0 <= j < |records| && records[j].key.auth == auth;
      assert after[j].key.auth == auth && after[j] in after && records[j] in records;
    }
    if MentionsAuth(after, auth) {
      var j :| 0 <= j < |after| && after[j].key.auth == auth;
      assert records[j].key.auth == auth;
    }
  }
}
