/** Single use of authorizations, and how far the handles' clocks may disagree before it is lost. */
module IssuanceSingleUse {
  import opened Common
  import opened Bytes
  import opened Issuance
  import opened IssuanceRuns

  predicate RecordedIn(file: seq<Record>, c: Creation) {
    exists i :: 0 <= i < |file| && file[i].key == c.key && file[i].expires == c.expires
  }

  /** No authorization identifier is created twice with one expiry, for the same CSR or another. */
  predicate SingleUse(created: seq<Creation>) {
    forall j, k | 0 <= j < k < |created| :: !(created[j].key.auth == created[k].key.auth && created[j].expires == created[k].expires)
  }

  // ---------------------------------------------------------------- clocks that disagree

  /** No transaction reads a clock more than `skew` seconds behind the latest reading before it. */
  predicate Within(ops: seq<Op>, latest: nat, skew: nat)
    decreases |ops|
  {
    ops == [] || (latest <= ops[0].now + skew && Within(ops[1..], Max(latest, ops[0].now), skew))
  }

  /** Half of what the retention of a result exceeds the longest authorization by: 11 hours, 57 minutes and 30 seconds. */
  const TOLERANCE: nat := (RESULT_TTL - MAX_AUTHORIZATION_TTL) / 2

  /** How long a record is kept past its authorization. */
  predicate Timed(r: Record, latest: nat, skew: nat) {
    r.expires <= latest + MAX_AUTHORIZATION_TTL && r.expires + RESULT_TTL <= r.retained + MAX_AUTHORIZATION_TTL + skew
  }

  predicate AllTimed(records: seq<Record>, latest: nat, skew: nat) {
    forall r | r in records :: Timed(r, latest, skew)
  }

  lemma PruneKeepsTimed(records: seq<Record>, now: nat, latest: nat, skew: nat)
    requires AllTimed(records, latest, skew)
    ensures AllTimed(Prune(records, now), Max(latest, now), skew)
  {
    PruneKeeps(records, now);
  }

  lemma BeginKeepsTimed(w: World, op: Op, latest: nat, skew: nat)
    requires op.OpBegin? && AllTimed(w.file, latest, skew)
    ensures AllTimed(Step(w, op).file, Max(latest, op.now), skew)
  {
    PruneKeepsTimed(w.file, op.now, latest, skew);
    BeginWrites(w.file, op);
  }

  lemma ChangeKeepsTimed(r: Record, edit: Edit, now: nat, latest: nat, skew: nat)
    requires Timed(r, latest, skew) && latest <= now + skew && ChangeOf(r, edit, now).Apply?
    ensures Timed(ChangeOf(r, edit, now).record, latest, skew)
  {
  }

  lemma EditKeepsTimed(w: World, op: Op, latest: nat, skew: nat)
    requires op.OpEdit? && AllTimed(w.file, latest, skew) && latest <= op.now + skew
    ensures AllTimed(Step(w, op).file, Max(latest, op.now), skew)
  {
    var pruned := Prune(w.file, op.now);
    PruneKeeps(w.file, op.now);
    EditWrites(w.file, op);
    if Step(w, op).file != w.file {
      var i := IndexOf(pruned, op.key);
      assert pruned[i] in pruned;
      ChangeKeepsTimed(pruned[i], op.edit, op.now, latest, skew);
    }
  }

  lemma StepKeepsTimed(w: World, op: Op, latest: nat, skew: nat)
    requires AllTimed(w.file, latest, skew) && latest <= op.now + skew
    ensures AllTimed(Step(w, op).file, Max(latest, op.now), skew)
  {
    match op
    case OpQuery(now, _) => PruneKeepsTimed(w.file, now, latest, skew);
    case OpBegin(_, _, _, _, _, _) => BeginKeepsTimed(w, op, latest, skew);
    case OpEdit(_, _, _, _) => EditKeepsTimed(w, op, latest, skew);
  }

  // ---------------------------------------------------------------- single use

  /** Every reported creation is on file until no clock can read a time before its authorization expired. */
  predicate Remembered(w: World, latest: nat, skew: nat) {
    forall k | 0 <= k < |w.created| :: w.created[k].expires + skew <= latest || RecordedIn(w.file, w.created[k])
  }

  lemma RetainedStaysRecorded(before: seq<Record>, after: seq<Record>, c: Creation, latest: nat, now: nat, skew: nat)
    requires AllTimed(before, latest, skew) && skew <= TOLERANCE
    requires Retains(before, after, now) && RecordedIn(before, c) && now < c.expires + skew
    ensures RecordedIn(after, c)
  {
    var i :| 0 <= i < |before| && before[i].key == c.key && before[i].expires == c.expires;
    assert before[i] in before && Timed(before[i], latest, skew);
    var s :| s in after && Evolves(before[i], s);
    var j :| 0 <= j < |after| && after[j] == s;
    assert after[j].key == c.key && after[j].expires == c.expires;
  }

  lemma BeginAppends(w: World, op: Op)
    requires op.OpBegin? && Creates(w.file, op)
    ensures Step(w, op).file == Prune(w.file, op.now) + [NewRecord(op.key, op.app, op.configuration, op.expires)]
    ensures !MentionsAuth(Prune(w.file, op.now), op.key.auth) && op.now < op.expires
  {
  }

  lemma NewCreationIsRecorded(w: World, op: Op)
    requires op.OpBegin? && Creates(w.file, op)
    ensures RecordedIn(Step(w, op).file, Creation(op.key, op.expires))
  {
    BeginAppends(w, op);
    var pruned, record := Prune(w.file, op.now), NewRecord(op.key, op.app, op.configuration, op.expires);
    assert (pruned + [record])[|pruned|] == record;
  }

  lemma StepRemembers(w: World, op: Op, latest: nat, skew: nat)
    requires AllTimed(w.file, latest, skew) && Remembered(w, latest, skew) && skew <= TOLERANCE
    ensures Remembered(Step(w, op), Max(latest, op.now), skew)
  {
    StepRetains(w, op);
    var n := Step(w, op);
    forall k | 0 <= k < |n.created| ensures n.created[k].expires + skew <= Max(latest, op.now) || RecordedIn(n.file, n.created[k]) {
      if k < |w.created| {
        assert n.created[k] == w.created[k];
        if Max(latest, op.now) < w.created[k].expires + skew {
          RetainedStaysRecorded(w.file, n.file, w.created[k], latest, op.now, skew);
        }
      } else {
        NewCreationIsRecorded(w, op);
      }
    }
  }

  lemma RecordedSurvivesPrune(file: seq<Record>, c: Creation, latest: nat, now: nat, skew: nat)
    requires AllTimed(file, latest, skew) && skew <= TOLERANCE && RecordedIn(file, c) && now < c.expires
    ensures MentionsAuth(Prune(file, now), c.key.auth)
  {
    var i :| 0 <= i < |file| && file[i].key == c.key && file[i].expires == c.expires;
    assert file[i] in file && Timed(file[i], latest, skew);
    PruneKeeps(file, now);
    assert file[i] in Prune(file, now);
  }

  lemma StepKeepsSingleUse(w: World, op: Op, latest: nat, skew: nat)
    requires AllTimed(w.file, latest, skew) && Remembered(w, latest, skew) && skew <= TOLERANCE
    requires latest <= op.now + skew && SingleUse(w.created)
    ensures SingleUse(Step(w, op).created)
  {
    if op.OpBegin? && Creates(w.file, op) {
      BeginAppends(w, op);
      forall j | 0 <= j < |w.created| && w.created[j].expires == op.expires ensures w.created[j].key.auth != op.key.auth {
        assert RecordedIn(w.file, w.created[j]);
        RecordedSurvivesPrune(w.file, w.created[j], latest, op.now, skew);
      }
    }
  }

  lemma {:induction false} RunKeepsSingleUse(w: World, ops: seq<Op>, latest: nat, skew: nat)
    requires AllTimed(w.file, latest, skew) && Remembered(w, latest, skew) && SingleUse(w.created)
    requires Within(ops, latest, skew) && skew <= TOLERANCE
    ensures SingleUse(Run(w, ops).created)
    decreases |ops|
  {
    if ops != [] {
      StepKeepsTimed(w, ops[0], latest, skew);
      StepRemembers(w, ops[0], latest, skew);
      StepKeepsSingleUse(w, ops[0], latest, skew);
      RunKeepsSingleUse(Step(w, ops[0]), ops[1..], Max(latest, ops[0].now), skew);
    }
  }

  // ---------------------------------------------------------------- the bound is exact

  lemma {:induction false} WithinWidens(ops: seq<Op>, latest: nat, skew: nat, wider: nat)
    requires Within(ops, latest, skew) && skew <= wider
    ensures Within(ops, latest, wider)
    decreases |ops|
  {
    if ops != [] {
      WithinWidens(ops[1..], Max(latest, ops[0].now), skew, wider);
    }
  }

  const KEY := Key(1, 1)
  const APP: Text := [65]
  const EXPIRES: nat := TOLERANCE + 1 + MAX_AUTHORIZATION_TTL

  /**
   * The clock of the handle that rejects is one second too far behind that of the one that begins, so
   * that the record is pruned while the beginning clock can still read a time before the expiry.
   */
  const BEGIN := OpBegin(KEY, APP, 1, EXPIRES, TOLERANCE + 1, NoFault)
  const REJECT := OpEdit(KEY, MarkRejected(1), 0, NoFault)
  const PRUNE := OpQuery(RESULT_TTL, NoFault)
  const BEGIN_AGAIN := OpBegin(KEY, APP, 1, EXPIRES, EXPIRES - 1, NoFault)
  const REUSE := [BEGIN, REJECT, PRUNE, BEGIN_AGAIN]

  const PENDING := NewRecord(KEY, APP, 1, EXPIRES)
  const REJECTED := PENDING.(status := Rejected, rejection := Some(1), retained := RESULT_TTL)

  lemma SingletonPrune(r: Record, now: nat)
    ensures Prune([r], now) == if r.retained > now then [r] else []
  {
    assert [r][..0] == [];
    assert Prune([r][..0], now) == [];
  }

  lemma PendingFile()
    ensures FileInv([PENDING])
  {
    NewRecordIsSound(KEY, APP, 1, EXPIRES, TOLERANCE + 1);
    AppendKeepsInv([], PENDING);
    assert [] + [PENDING] == [PENDING];
  }

  lemma CreatesIn(w: World, op: Op)
    requires w.file == [] && (op == BEGIN || op == BEGIN_AGAIN)
    ensures Step(w, op) == World([PENDING], w.created + [Creation(KEY, EXPIRES)])
  {
    assert Prune([], op.now) == [];
  }

  lemma Rejects(w: World)
    requires w.file == [PENDING]
    ensures Step(w, REJECT) == w.(file := [REJECTED])
  {
    PendingFile();
    FileInvIsValid(w.file);
    SingletonPrune(PENDING, 0);
    FoundEdit(w.file, KEY, MarkRejected(1), 0, NoFault, 0);
  }

  lemma Prunes(w: World)
    requires w.file == [REJECTED] && ValidFile(w.file)
    ensures Step(w, PRUNE) == w.(file := [])
  {
    SingletonPrune(REJECTED, RESULT_TTL);
  }

  lemma {:induction false} RunTakes(w: World, op: Op, rest: seq<Op>)
    ensures Run(w, [op] + rest) == Run(Step(w, op), rest)
  {
    assert ([op] + rest)[1..] == rest;
  }

  lemma {:induction false} WithinTakes(op: Op, rest: seq<Op>, latest: nat, skew: nat)
    requires latest <= op.now + skew && Within(rest, Max(latest, op.now), skew)
    ensures Within([op] + rest, latest, skew)
  {
    assert ([op] + rest)[1..] == rest;
  }

  lemma ReuseIsWithin()
    ensures Within(REUSE, 0, TOLERANCE + 1)
  {
    WithinTakes(BEGIN_AGAIN, [], RESULT_TTL, TOLERANCE + 1);
    WithinTakes(PRUNE, [BEGIN_AGAIN] + [], TOLERANCE + 1, TOLERANCE + 1);
    WithinTakes(REJECT, [PRUNE] + ([BEGIN_AGAIN] + []), TOLERANCE + 1, TOLERANCE + 1);
    WithinTakes(BEGIN, [REJECT] + ([PRUNE] + ([BEGIN_AGAIN] + [])), 0, TOLERANCE + 1);
    assert REUSE == [BEGIN] + ([REJECT] + ([PRUNE] + ([BEGIN_AGAIN] + [])));
  }

  lemma ReuseCreatesTwice()
    ensures Run(EMPTY_WORLD, REUSE).created == [Creation(KEY, EXPIRES), Creation(KEY, EXPIRES)]
  {
    var begun := Step(EMPTY_WORLD, BEGIN);
    CreatesIn(EMPTY_WORLD, BEGIN);
    Rejects(begun);
    PendingFile();
    StepKeepsFile(begun, REJECT);
    FileInvIsValid([REJECTED]);
    Prunes(Step(begun, REJECT));
    var pruned := Step(Step(begun, REJECT), PRUNE);
    CreatesIn(pruned, BEGIN_AGAIN);
    RunTakes(pruned, BEGIN_AGAIN, []);
    RunTakes(Step(begun, REJECT), PRUNE, [BEGIN_AGAIN] + []);
    RunTakes(begun, REJECT, [PRUNE] + ([BEGIN_AGAIN] + []));
    RunTakes(EMPTY_WORLD, BEGIN, [REJECT] + ([PRUNE] + ([BEGIN_AGAIN] + [])));
    assert REUSE == [BEGIN] + ([REJECT] + ([PRUNE] + ([BEGIN_AGAIN] + [])));
  }

  /**
   * From an empty store, one authorization identifier and expiry is reported as created at most once,
   * over all handles and prunings, in every run in which the clocks disagree by at most `skew` seconds,
   * exactly when `skew` is within the tolerance. A clock that never runs backwards is the case of no skew.
   */
  lemma AuthorizationsAreSingleUse(skew: nat)
    ensures (forall ops | Within(ops, 0, skew) :: SingleUse(Run(EMPTY_WORLD, ops).created)) <==> skew <= TOLERANCE
  {
    if skew <= TOLERANCE {
      forall ops | Within(ops, 0, skew) ensures SingleUse(Run(EMPTY_WORLD, ops).created) {
        RunKeepsSingleUse(EMPTY_WORLD, ops, 0, skew);
      }
    } else {
      ReuseIsWithin();
      ReuseCreatesTwice();
      WithinWidens(REUSE, 0, TOLERANCE + 1, skew);
      var created := Run(EMPTY_WORLD, REUSE).created;
      assert created[0].key.auth == created[1].key.auth && created[0].expires == created[1].expires;
    }
  }
}
