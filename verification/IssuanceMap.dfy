/** The issuance transactions of any number of stale handles refine transactions on one shared map. */
module IssuanceMap {
  import opened Common
  import opened Bytes
  import opened Issuance
  import opened IssuanceRuns

  type Store = map<AuthId, Record>

  /** What one transaction tells its caller. */
  datatype Answer =
    | Listed(listed: Result<Store, IssuanceError>)
    | Began(begun: Result<Begun, IssuanceError>)
    | Edited(edited: Result<Record, IssuanceError>)

  // ---------------------------------------------------------------- transactions on the map

  function Unexpired(m: Store, now: nat): Store {
    map auth | auth in m && m[auth].retained > now :: m[auth]
  }

  function Lookup(m: Store, key: Key): Option<Record> {
    if key.auth in m && m[key.auth].key == key then Some(m[key.auth]) else None
  }

  predicate Unloadable(fault: Fault) {
    fault == LockFails || fault == ReadFails
  }

  /** A pruned map need not be written back when nothing was pruned. */
  predicate Writes(m: Store, pruned: Store, fault: Fault) {
    pruned == m || fault != WriteFails
  }

  function MapQuery(m: Store, now: nat, fault: Fault): (Store, Result<Store, IssuanceError>) {
    var pruned := Unexpired(m, now);
    if Unloadable(fault) || !Writes(m, pruned, fault) then (m, Err(ConfigurationRead)) else (pruned, Ok(pruned))
  }

  function MapBegin(m: Store, key: Key, app: Text, configuration: nat, expires: nat, now: nat, fault: Fault)
    : (Store, Result<Begun, IssuanceError>)
  {
    var pruned, refusal := Unexpired(m, now), BeginRefusal(key, app, configuration, expires, now);
    if refusal.Some? then (m, Err(refusal.value))
    else if Unloadable(fault) then (m, Err(ConfigurationRead))
    else
      match Lookup(pruned, key)
      case Some(existing) =>
        if existing.app != app then (m, Err(AppMismatch))
        else if existing.configuration != Some(configuration) then (m, Err(GenerationMismatch))
        else if Writes(m, pruned, fault) then (pruned, Ok(Existing(existing)))
        else (m, Err(ConfigurationRead))
      case None =>
        if key.auth in pruned then (m, Err(BoundToAnotherCsr))
        else if |pruned| >= MAX_RECORDS then (m, Err(ResourceLimit))
        else if fault == WriteFails then (m, Err(ConfigurationRead))
        else
          var record := NewRecord(key, app, configuration, expires);
          (pruned[key.auth := record], Ok(Created(record)))
  }

  function MapEdit(m: Store, key: Key, edit: Edit, now: nat, fault: Fault): (Store, Result<Record, IssuanceError>) {
    var pruned, refusal := Unexpired(m, now), EditRefusal(edit);
    if refusal.Some? then (m, Err(refusal.value))
    else if Unloadable(fault) then (m, Err(ConfigurationRead))
    else
      match Lookup(pruned, key)
      case None => (m, Err(ConfigurationRead))
      case Some(record) =>
        match ChangeOf(record, edit, now)
        case Refuse(error) => (m, Err(error))
        case Keep => (m, Ok(record))
        case Apply(changed) =>
          if fault == WriteFails then (m, Err(ConfigurationRead)) else (pruned[key.auth := changed], Ok(changed))
  }

  function MapStep(m: Store, op: Op): (Store, Answer) {
    match op
    case OpQuery(now, fault) =>
      var (n, listed) := MapQuery(m, now, fault);
      (n, Listed(listed))
    case OpBegin(key, app, configuration, expires, now, fault) =>
      var (n, begun) := MapBegin(m, key, app, configuration, expires, now, fault);
      (n, Began(begun))
    case OpEdit(key, edit, now, fault) =>
      var (n, edited) := MapEdit(m, key, edit, now, fault);
      (n, Edited(edited))
  }

  /** What the transaction on the file tells its caller; a listing is compared as a map. */
  function AnswerOf(file: seq<Record>, op: Op): Answer {
    match op
    case OpQuery(now, fault) =>
      var queried := Query(file, now, fault).1;
      Listed(if queried.Ok? then Ok(AsMap(queried.value)) else Err(queried.error))
    case OpBegin(key, app, configuration, expires, now, fault) =>
      Began(BeginPending(file, key, app, configuration, expires, now, fault).1)
    case OpEdit(key, edit, now, fault) => Edited(EditRecord(file, key, edit, now, fault).1)
  }

  // ---------------------------------------------------------------- files as maps

  lemma {:induction false} AsMapSize(records: seq<Record>)
    requires DistinctAuths(records)
    ensures |AsMap(records)| == |records|
  {
    if records != [] {
      var front, last := records[..|records| - 1], records[|records| - 1];
      AsMapSize(front);
      AsMapHolds(front, last.key.auth);
      assert AsMap(records).Keys == AsMap(front).Keys + {last.key.auth};
      assert |AsMap(front).Keys| == |AsMap(front)| && |AsMap(records).Keys| == |AsMap(records)|;
    }
  }

  lemma {:induction false} PruneIsShorter(records: seq<Record>, now: nat)
    ensures |Prune(records, now)| <= |records|
    ensures |Prune(records, now)| == |records| ==> Prune(records, now) == records
  {
    if records != [] {
      var front := records[..|records| - 1];
      PruneIsShorter(front, now);
      assert records == front + [records[|records| - 1]];
    }
  }

  /** Pruning commutes with reading the file as a map, and removes something from both or from neither. */
  lemma PruneCommutes(records: seq<Record>, now: nat)
    requires DistinctAuths(records)
    ensures DistinctAuths(Prune(records, now))
    ensures AsMap(Prune(records, now)) == Unexpired(AsMap(records), now)
    ensures Prune(records, now) == records <==> Unexpired(AsMap(records), now) == AsMap(records)
    ensures |Unexpired(AsMap(records), now)| == |Prune(records, now)|
  {
    PruneAsMap(records, now);
    PruneKeeps(records, now);
    PruneIsShorter(records, now);
    AsMapSize(records);
    AsMapSize(Prune(records, now));
  }

  lemma FindCommutes(records: seq<Record>, key: Key)
    requires DistinctAuths(records)
    ensures Find(records, key) == Lookup(AsMap(records), key)
    ensures MentionsAuth(records, key.auth) <==> key.auth in AsMap(records)
  {
    AsMapHolds(records, key.auth);
    var i := IndexOf(records, key);
    if i < |records| {
      assert records[i] in records;
    } else if key.auth in AsMap(records) {
      var r := AsMap(records)[key.auth];
      var j :| 0 <= j < |records| && records[j] == r;
      assert records[j].key != key;
    }
  }

  lemma LoadsUnlessFaulty(file: seq<Record>, fault: Fault)
    requires FileInv(file)
    ensures Load(file, fault) == if Unloadable(fault) then Err(ConfigurationRead) else Ok(file)
  {
    FileInvIsValid(file);
  }

  // ---------------------------------------------------------------- refinement

  lemma QueryRefines(w: World, op: Op)
    requires op.OpQuery? && FileInv(w.file)
    ensures (AsMap(Step(w, op).file), AnswerOf(w.file, op)) == MapStep(AsMap(w.file), op)
  {
    LoadsUnlessFaulty(w.file, op.fault);
    PruneCommutes(w.file, op.now);
  }

  /** What the pruned file and the pruned map have in common, as far as a transaction on one key looks. */
  predicate Alike(file: seq<Record>, m: Store, key: Key, now: nat) {
    var pruned, unexpired := Prune(file, now), Unexpired(m, now);
    && AsMap(file) == m && AsMap(pruned) == unexpired && |unexpired| == |pruned|
    && (pruned == file <==> unexpired == m)
    && Find(pruned, key) == Lookup(unexpired, key)
    && (MentionsAuth(pruned, key.auth) <==> key.auth in unexpired)
  }

  lemma FilesAreAlike(file: seq<Record>, key: Key, now: nat)
    requires DistinctAuths(file)
    ensures Alike(file, AsMap(file), key, now)
  {
    PruneCommutes(file, now);
    FindCommutes(Prune(file, now), key);
  }

  /** The transaction as it looks once the file is loaded, in terms of what was pruned. */
  lemma LoadedBegin(file: seq<Record>, m: Store, key: Key, app: Text, configuration: nat, expires: nat, now: nat, fault: Fault)
    requires Alike(file, m, key, now) && Load(file, fault) == Ok(file) && !Unloadable(fault)
    requires BeginRefusal(key, app, configuration, expires, now).None?
    ensures var (after, answer) := BeginPending(file, key, app, configuration, expires, now, fault);
      && answer == MapBegin(m, key, app, configuration, expires, now, fault).1
      && AsMap(after) == MapBegin(m, key, app, configuration, expires, now, fault).0
  {
    var pruned := Prune(file, now);
    match Find(pruned, key) {
      case Some(existing) =>
        assert BeginPending(file, key, app, configuration, expires, now, fault)
            == Resume(file, pruned, existing, app, configuration, fault);
      case None =>
        AsMapAppend(pruned, NewRecord(key, app, configuration, expires));
    }
  }

  lemma BeginRefines(w: World, op: Op)
    requires op.OpBegin? && FileInv(w.file)
    ensures (AsMap(Step(w, op).file), AnswerOf(w.file, op)) == MapStep(AsMap(w.file), op)
  {
    LoadsUnlessFaulty(w.file, op.fault);
    if BeginRefusal(op.key, op.app, op.configuration, op.expires, op.now).None? && !Unloadable(op.fault) {
      FilesAreAlike(w.file, op.key, op.now);
      LoadedBegin(w.file, AsMap(w.file), op.key, op.app, op.configuration, op.expires, op.now, op.fault);
    }
  }

  lemma LoadedEdit(file: seq<Record>, m: Store, key: Key, edit: Edit, now: nat, fault: Fault)
    requires Alike(file, m, key, now) && Load(file, fault) == Ok(file) && !Unloadable(fault)
    requires DistinctAuths(Prune(file, now)) && EditRefusal(edit).None?
    ensures var (after, answer) := EditRecord(file, key, edit, now, fault);
      && answer == MapEdit(m, key, edit, now, fault).1
      && AsMap(after) == MapEdit(m, key, edit, now, fault).0
  {
    var pruned := Prune(file, now);
    var i := IndexOf(pruned, key);
    if i < |pruned| {
      FoundEdit(file, key, edit, now, fault, i);
      MapEditFound(m, pruned[i], edit, now, fault);
      var change := ChangeOf(pruned[i], edit, now);
      if change.Apply? {
        ChangeKeepsKey(pruned[i], edit, now);
        EditAsMap(pruned, i, change.record);
      }
    } else {
      assert Find(pruned, key) == None;
    }
  }

  lemma MapEditFound(m: Store, r: Record, edit: Edit, now: nat, fault: Fault)
    requires Lookup(Unexpired(m, now), r.key) == Some(r) && !Unloadable(fault) && EditRefusal(edit).None?
    ensures MapEdit(m, r.key, edit, now, fault) ==
        match ChangeOf(r, edit, now)
        case Refuse(error) => (m, Err(error))
        case Keep => (m, Ok(r))
        case Apply(changed) =>
          if fault == WriteFails then (m, Err(ConfigurationRead)) else (Unexpired(m, now)[r.key.auth := changed], Ok(changed))
  {
  }

  lemma ChangeKeepsKey(r: Record, edit: Edit, now: nat)
    requires ChangeOf(r, edit, now).Apply?
    ensures ChangeOf(r, edit, now).record.key == r.key
  {
  }

  lemma EditRefines(w: World, op: Op)
    requires op.OpEdit? && FileInv(w.file)
    ensures (AsMap(Step(w, op).file), AnswerOf(w.file, op)) == MapStep(AsMap(w.file), op)
  {
    LoadsUnlessFaulty(w.file, op.fault);
    if EditRefusal(op.edit).None? && !Unloadable(op.fault) {
      FilesAreAlike(w.file, op.key, op.now);
      PruneCommutes(w.file, op.now);
      LoadedEdit(w.file, AsMap(w.file), op.key, op.edit, op.now, op.fault);
    }
  }

  /** Every transaction, refused, failed or done, is the same transaction on the shared map with the same answer. */
  lemma StepRefines(w: World, op: Op)
    requires FileInv(w.file)
    ensures (AsMap(Step(w, op).file), AnswerOf(w.file, op)) == MapStep(AsMap(w.file), op)
  {
    match op
    case OpQuery(_, _) => QueryRefines(w, op);
    case OpBegin(_, _, _, _, _, _) => BeginRefines(w, op);
    case OpEdit(_, _, _, _) => EditRefines(w, op);
  }

  function MapRun(m: Store, ops: seq<Op>): Store
    decreases |ops|
  {
    if ops == [] then m else MapRun(MapStep(m, ops[0]).0, ops[1..])
  }

  function MapAnswers(m: Store, ops: seq<Op>): seq<Answer>
    decreases |ops|
  {
    if ops == [] then [] else [MapStep(m, ops[0]).1] + MapAnswers(MapStep(m, ops[0]).0, ops[1..])
  }

  function Answers(w: World, ops: seq<Op>): seq<Answer>
    decreases |ops|
  {
    if ops == [] then [] else [AnswerOf(w.file, ops[0])] + Answers(Step(w, ops[0]), ops[1..])
  }

  lemma {:induction false} RunRefines(w: World, ops: seq<Op>)
    requires FileInv(w.file)
    ensures AsMap(Run(w, ops).file) == MapRun(AsMap(w.file), ops)
    ensures Answers(w, ops) == MapAnswers(AsMap(w.file), ops)
    decreases |ops|
  {
    if ops != [] {
      StepRefines(w, ops[0]);
      StepKeepsFile(w, ops[0]);
      RunRefines(Step(w, ops[0]), ops[1..]);
    }
  }

  /**
   * Whatever handles interleave, with whatever they had cached and whatever fails: from the empty store
   * every run has the effect and gives the answers of the same run on one shared map.
   */
  lemma StaleHandlesShareOneMap(ops: seq<Op>)
    ensures AsMap(Run(EMPTY_WORLD, ops).file) == MapRun(map[], ops)
    ensures Answers(EMPTY_WORLD, ops) == MapAnswers(map[], ops)
  {
    RunRefines(EMPTY_WORLD, ops);
  }

  /** A reconcile answers from the map its query leaves. */
  lemma ReconcileRefines(file: seq<Record>, key: Key, now: nat, fault: Fault)
    requires FileInv(file)
    ensures var (after, found) := Reconcile(file, key, now, fault);
      var (m, listed) := MapQuery(AsMap(file), now, fault);
      && AsMap(after) == m
      && found == (if listed.Ok? then Ok(Lookup(listed.value, key)) else Err(listed.error))
  {
    LoadsUnlessFaulty(file, fault);
    PruneCommutes(file, now);
    FindCommutes(Prune(file, now), key);
  }

  // ---------------------------------------------------------------- an attached candidate

  /** A pending record on which nothing was attached yet. */
  predicate Blank(m: Store, r: Record, now: nat) {
    Lookup(m, r.key) == Some(r) && r.status == Pending && r.chain == [] && r.retained > now
  }

  lemma AttachThenFinalize(m: Store, r: Record, candidate: Material, final: Material, now: nat)
    requires Blank(m, r, now) && now + RESULT_TTL <= U64_MAX
    requires MaterialRefusal(candidate).None? && MaterialRefusal(final).None?
    ensures var (attached, first) := MapEdit(m, r.key, Attach(candidate), now, NoFault);
      var (issued, second) := MapEdit(attached, r.key, MarkIssued(final), now, NoFault);
      && first == Ok(WithMaterial(r, candidate)) && second.Ok?
      && Lookup(issued, r.key) == Some(second.value)
      && SameMaterial(second.value, final) && second.value.status == Issued && second.value.retained > now
  {
    var attached := Unexpired(m, now)[r.key.auth := WithMaterial(r, candidate)];
    assert Lookup(Unexpired(m, now), r.key) == Some(r);
    assert MapEdit(m, r.key, Attach(candidate), now, NoFault).0 == attached;
    assert Lookup(Unexpired(attached, now), r.key) == Some(WithMaterial(r, candidate));
  }

  lemma TwoOps(w: World, first: Op, second: Op)
    ensures Run(w, [first, second]) == Step(Step(w, first), second)
    ensures Answers(w, [first, second]) == [AnswerOf(w.file, first), AnswerOf(Step(w, first).file, second)]
  {
    assert [first, second][1..] == [second] && [second][1..] == [];
    assert Run(Step(w, first), [second]) == Step(Step(w, first), second);
    assert Answers(Step(w, first), [second]) == [AnswerOf(Step(w, first).file, second)];
  }

  lemma IssuedAfterAttachment(w: World, r: Record, candidate: Material, final: Material, now: nat)
    requires FileInv(w.file) && Blank(AsMap(w.file), r, now) && now + RESULT_TTL <= U64_MAX
    requires MaterialRefusal(candidate).None? && MaterialRefusal(final).None? && candidate != final
    ensures var ops := [OpEdit(r.key, Attach(candidate), now, NoFault), OpEdit(r.key, MarkIssued(final), now, NoFault)];
      var found := Reconcile(Run(w, ops).file, r.key, now, NoFault).1;
      && (exists a, b :: Answers(w, ops) == [Edited(Ok(a)), Edited(Ok(b))])
      && found.Ok? && found.value.Some?
      && SameMaterial(found.value.value, final) && !SameMaterial(found.value.value, candidate)
  {
    var attach, issue := OpEdit(r.key, Attach(candidate), now, NoFault), OpEdit(r.key, MarkIssued(final), now, NoFault);
    var attached := Step(w, attach);
    TwoOps(w, attach, issue);
    AttachThenFinalize(AsMap(w.file), r, candidate, final, now);
    StepRefines(w, attach);
    StepKeepsFile(w, attach);
    StepRefines(attached, issue);
    StepKeepsFile(attached, issue);
    IssuedIsFound(Step(attached, issue).file, r.key, now);
  }

  lemma BeginIsBlank(key: Key, app: Text, configuration: nat, expires: nat, now: nat)
    requires BeginRefusal(key, app, configuration, expires, now).None?
    ensures var begin := OpBegin(key, app, configuration, expires, now, NoFault);
      var record := NewRecord(key, app, configuration, expires);
      && AnswerOf([], begin) == Began(Ok(Created(record)))
      && Blank(AsMap(Step(EMPTY_WORLD, begin).file), record, now)
  {
    var begin := OpBegin(key, app, configuration, expires, now, NoFault);
    StepRefines(EMPTY_WORLD, begin);
    assert Unexpired(map[], now) == map[];
  }

  /**
   * What was attached does not bind: after a run from the empty store that begins an authorization,
   * attaches one candidate and finalizes another material, all reported as done, a reconcile returns the
   * second and never the first.
   */
  lemma FinalizationForgetsCandidate(key: Key, app: Text, configuration: nat, expires: nat, now: nat, candidate: Material, final: Material)
    requires BeginRefusal(key, app, configuration, expires, now).None?
    requires MaterialRefusal(candidate).None? && MaterialRefusal(final).None? && candidate != final
    ensures var ops := [OpBegin(key, app, configuration, expires, now, NoFault),
                        OpEdit(key, Attach(candidate), now, NoFault), OpEdit(key, MarkIssued(final), now, NoFault)];
      var found := Reconcile(Run(EMPTY_WORLD, ops).file, key, now, NoFault).1;
      && (exists r, a, b :: Answers(EMPTY_WORLD, ops) == [Began(Ok(Created(r))), Edited(Ok(a)), Edited(Ok(b))])
      && found.Ok? && found.value.Some?
      && SameMaterial(found.value.value, final) && !SameMaterial(found.value.value, candidate)
  {
    var begin := OpBegin(key, app, configuration, expires, now, NoFault);
    var edits := [OpEdit(key, Attach(candidate), now, NoFault), OpEdit(key, MarkIssued(final), now, NoFault)];
    var record := NewRecord(key, app, configuration, expires);
    var begun := Step(EMPTY_WORLD, begin);
    BeginIsBlank(key, app, configuration, expires, now);
    StepKeepsFile(EMPTY_WORLD, begin);
    IssuedAfterAttachment(begun, record, candidate, final, now);
    var a, b :| Answers(begun, edits) == [Edited(Ok(a)), Edited(Ok(b))];
    assert [begin, edits[0], edits[1]][1..] == edits;
    assert Answers(EMPTY_WORLD, [begin, edits[0], edits[1]]) == [Began(Ok(Created(record))), Edited(Ok(a)), Edited(Ok(b))];
  }

  /** A record that is on file and not expired is what a reconcile returns. */
  lemma IssuedIsFound(file: seq<Record>, key: Key, now: nat)
    requires FileInv(file) && Lookup(AsMap(file), key).Some? && Lookup(AsMap(file), key).value.retained > now
    ensures Reconcile(file, key, now, NoFault).1 == Ok(Lookup(AsMap(file), key))
  {
    ReconcileRefines(file, key, now, NoFault);
  }
}
