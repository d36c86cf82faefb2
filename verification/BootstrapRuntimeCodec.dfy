/** Persist and restore of the bootstrap runtime are inverse up to turning pending work into orphans. */
module BootstrapRuntimeCodec {
  import opened Common
  import opened Sessions
  import opened BootstrapRuntime

  // ---------------------------------------------------------------- sound states

  predicate AttemptSound(id: Id, a: Attempt, session: Session) {
    && id != 0 && a.approval != 0 && a.appCsr != 0 && a.coreBinding != 0 && a.generation != 0
    && a.session == session && ValidWorkspace(a.workspace)
  }

  predicate AppSound(id: Id, a: AppApproval, session: Session) {
    && id != 0 && a.appCsr != 0 && a.coreBinding != 0 && a.generation != 0
    && a.session == session && ValidWorkspace(a.workspace)
  }

  /** A confirmed approval has deadline zero, an unconfirmed one never does. */
  predicate CoreSound(id: Id, a: CoreApproval) {
    && id != 0 && a.appCsr != 0 && a.coreBinding != 0 && a.generation != 0 && ValidSession(a.session)
    && a.issued.approval == id && a.issued.coreIdentity == a.coreIdentity
    && ValidChain(a.issued.chain) && a.issued.notAfter != 0
    && (a.confirmed <==> a.recoveryExpires == 0)
  }

  /** At most one workspace is tracked, by an attempt, an approval or an orphan. */
  predicate Single(s: State) {
    |s.attempts| + |s.app| + |s.orphans| <= 1
  }

  predicate Occupied(s: State) {
    s.attempts != map[] || s.app != map[]
  }

  predicate Sound(s: State, session: Session) {
    && ValidSession(session)
    && Single(s)
    && s.active == (if Occupied(s) then {session} else {})
    && (forall id {:trigger AttemptSound(id, s.attempts[id], session)} | id in s.attempts :: AttemptSound(id, s.attempts[id], session))
    && (forall id {:trigger AppSound(id, s.app[id], session)} | id in s.app :: AppSound(id, s.app[id], session))
    && (forall id {:trigger CoreSound(id, s.core[id])} | id in s.core :: CoreSound(id, s.core[id]))
    && (forall i {:trigger s.orphans[i]} | 0 <= i < |s.orphans| :: ValidWorkspace(s.orphans[i].workspace))
  }

  // ---------------------------------------------------------------- restoring what was written

  predicate AllPending(records: seq<StateRecord>) {
    AllValid(records) && forall i | 0 <= i < |records| :: !records[i].kind.CoreIssued?
  }

  function OrphansOf(records: seq<StateRecord>): seq<Orphan>
    requires AllPending(records)
  {
    seq(|records|, i requires 0 <= i < |records| =>
      assert ValidRecord(records[i]) && !records[i].kind.CoreIssued?;
      Orphan(records[i].session, records[i].workspace.value))
  }

  lemma {:induction false} PendingRestores(records: seq<StateRecord>)
    requires AllPending(records)
    ensures RestoredCore(records) == map[] && RestoredOrphans(records) == OrphansOf(records)
  {
    if records != [] {
      var front := records[..|records| - 1];
      PendingRestores(front);
      assert ValidRecord(records[|records| - 1]) && !records[|records| - 1].kind.CoreIssued?;
    }
  }

  /** The pending part of a written file: attempts, then app approvals. */
  ghost function PendingRecords(s: State): seq<StateRecord> {
    AttemptRecords(s.attempts) + AppRecords(s.app)
  }

  lemma PendingRecordsArePending(s: State, session: Session)
    requires Sound(s, session)
    ensures AllPending(PendingRecords(s))
  {
    var attempts, app := SortedKeys(s.attempts.Keys), SortedKeys(s.app.Keys);
    forall i | 0 <= i < |attempts|
      ensures ValidRecord(AttemptRecords(s.attempts)[i]) && !AttemptRecords(s.attempts)[i].kind.CoreIssued?
    {
      assert attempts[i] in attempts;
      assert AttemptSound(attempts[i], s.attempts[attempts[i]], session);
    }
    forall i | 0 <= i < |app| ensures ValidRecord(AppRecords(s.app)[i]) && !AppRecords(s.app)[i].kind.CoreIssued? {
      assert app[i] in app;
      assert AppSound(app[i], s.app[app[i]], session);
    }
  }

  lemma AppendRestores(records: seq<StateRecord>, last: StateRecord)
    requires AllValid(records) && ValidRecord(last) && last.kind.CoreIssued?
    ensures AllValid(records + [last])
    ensures RestoredCore(records + [last]) == RestoredCore(records)[last.approval := RestoredApproval(last)]
    ensures RestoredOrphans(records + [last]) == RestoredOrphans(records)
  {
    assert (records + [last])[..|records|] == records;
  }

  /** Each record restores the approval of the key it is listed for. */
  predicate Lists(written: seq<StateRecord>, ids: seq<Id>, core: map<Id, CoreApproval>) {
    && |written| == |ids|
    && forall i | 0 <= i < |ids| ::
         && ids[i] in core && ValidRecord(written[i]) && written[i].kind.CoreIssued?
         && written[i].approval == ids[i] && RestoredApproval(written[i]) == core[ids[i]]
  }

  lemma CoreRecordsList(core: map<Id, CoreApproval>)
    requires forall id {:trigger CoreSound(id, core[id])} | id in core :: CoreSound(id, core[id])
    ensures Lists(CoreRecords(core), SortedKeys(core.Keys), core)
  {
    var ids := SortedKeys(core.Keys);
    forall i | 0 <= i < |ids| ensures ids[i] in core && CoreSound(ids[i], core[ids[i]]) {
      assert ids[i] in ids;
    }
  }

  function Chosen(core: map<Id, CoreApproval>, ids: seq<Id>): map<Id, CoreApproval> {
    map id | id in core && id in ids :: core[id]
  }

  lemma {:induction false} ListedRestores(pending: seq<StateRecord>, written: seq<StateRecord>, ids: seq<Id>, core: map<Id, CoreApproval>)
    requires AllPending(pending) && Lists(written, ids, core)
    ensures AllValid(pending + written)
    ensures RestoredCore(pending + written) == Chosen(core, ids)
    ensures RestoredOrphans(pending + written) == OrphansOf(pending)
  {
    if written == [] {
      PendingRestores(pending);
      assert pending + written == pending;
    } else {
      var k := |written| - 1;
      ListedRestores(pending, written[..k], ids[..k], core);
      AppendRestores(pending + written[..k], written[k]);
      assert pending + written == pending + written[..k] + [written[k]];
      assert ids == ids[..k] + [ids[k]];
      assert Chosen(core, ids) == Chosen(core, ids[..k])[ids[k] := core[ids[k]]];
    }
  }

  lemma RecordsRestore(s: State, session: Session)
    requires Sound(s, session)
    ensures AllPending(PendingRecords(s)) && AllValid(Records(s))
    ensures RestoredCore(Records(s)) == s.core
    ensures RestoredOrphans(Records(s)) == OrphansOf(PendingRecords(s))
  {
    PendingRecordsArePending(s, session);
    CoreRecordsList(s.core);
    var ids := SortedKeys(s.core.Keys);
    ListedRestores(PendingRecords(s), CoreRecords(s.core), ids, s.core);
    AllChosen(s.core, ids);
  }

  lemma AllChosen(core: map<Id, CoreApproval>, ids: seq<Id>)
    requires forall id :: id in ids <==> id in core.Keys
    ensures Chosen(core, ids) == core
  {
  }

  /**
   * A persisted state whose file stays within the readable 64 KiB is restored with exactly its core
   * approvals, and with every pending attempt or approval turned into an orphaned workspace.
   */
  lemma RestoreInvertsPersist(s: State, session: Session, file: Option<Image>, fault: PersistFault)
    requires Sound(s, session) && Persist(s, file, fault).1
    ensures AllPending(PendingRecords(s))
    ensures var written := Persist(s, file, fault).0;
      Restore(written, false)
      == (if written.Some? && fault.size > MAX_READABLE_BYTES then None
          else Some(NEW_STATE.(core := s.core, orphans := OrphansOf(PendingRecords(s)))))
  {
    RecordsRestore(s, session);
    if s.attempts == map[] && s.app == map[] && s.core == map[] {
      assert PendingRecords(s) == [];
    }
  }

  /** A pending attempt's workspace is the orphan restored from its record. */
  lemma PendingWorkspacesAreRestored(s: State, session: Session)
    requires Sound(s, session)
    ensures AllPending(PendingRecords(s))
    ensures forall id | id in s.attempts :: OrphansOf(PendingRecords(s)) == [Orphan(s.attempts[id].session, s.attempts[id].workspace)]
    ensures forall id | id in s.app :: OrphansOf(PendingRecords(s)) == [Orphan(s.app[id].session, s.app[id].workspace)]
  {
    PendingRecordsArePending(s, session);
    forall id | id in s.attempts
      ensures OrphansOf(PendingRecords(s)) == [Orphan(s.attempts[id].session, s.attempts[id].workspace)]
    {
      AttemptAlone(s, id);
      assert SortedKeys(s.attempts.Keys)[0] in SortedKeys(s.attempts.Keys);
    }
    forall id | id in s.app ensures OrphansOf(PendingRecords(s)) == [Orphan(s.app[id].session, s.app[id].workspace)] {
      AppAlone(s, id);
      assert SortedKeys(s.app.Keys)[0] in SortedKeys(s.app.Keys);
    }
  }

  // ---------------------------------------------------------------- what being single means

  lemma SoleKey<V>(m: map<Id, V>, id: Id)
    requires id in m && |m| <= 1
    ensures m.Keys == {id} && m == map[id := m[id]]
  {
    assert |m.Keys| == |m|;
    assert m.Keys - {id} == {} by {
      assert |m.Keys - {id}| == |m.Keys| - 1;
    }
  }

  lemma AttemptAlone(s: State, id: Id)
    requires Single(s) && id in s.attempts
    ensures s.attempts == map[id := s.attempts[id]] && s.attempts.Keys == {id} && s.app == map[] && s.orphans == []
  {
    assert |s.attempts| != 0;
    SoleKey(s.attempts, id);
  }

  lemma AppAlone(s: State, id: Id)
    requires Single(s) && id in s.app
    ensures s.app == map[id := s.app[id]] && s.app.Keys == {id} && s.attempts == map[] && s.orphans == []
  {
    assert |s.app| != 0;
    SoleKey(s.app, id);
  }
}
