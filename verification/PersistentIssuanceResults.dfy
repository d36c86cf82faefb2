/** The issuance-result handle of src/issuance.rs: each call locks, loads, prunes, edits and persists one file. */
module PersistentIssuanceResults {
  import opened Common
  import opened Bytes
  import opened Issuance

  /** The protected file that any number of handles share. */
  class IssuanceFile {
    var records: seq<Record>

    constructor ()
      ensures records == []
    {
      records := [];
    }
  }

  method ChainBytes(chain: seq<Text>) returns (refusal: Option<IssuanceError>)
    ensures refusal == ChainRefusal(chain)
  {
    if chain == [] {
      return Some(InvalidChain);
    }
    var total := 0;
    for n := 0 to |chain|
      invariant forall i | 0 <= i < n :: chain[i] != []
      invariant total == TotalBytes(chain[..n])
    {
      if chain[n] == [] {
        return Some(InvalidChain);
      }
      assert chain[..n + 1][..n] == chain[..n];
      total := total + |chain[n]|;
    }
    assert chain[..|chain|] == chain;
    return if total > MAX_CHAIN_BYTES then Some(ResourceLimit) else None;
  }

  /** Accepts exactly the valid files, collecting the keys seen so far. */
  method ValidateRecords(records: seq<Record>) returns (ok: bool)
    ensures ok <==> ValidFile(records)
  {
    if |records| > MAX_RECORDS {
      return false;
    }
    var keys: set<Key> := {};
    for n := 0 to |records|
      invariant forall k :: k in keys <==> exists i :: 0 <= i < n && records[i].key == k
      invariant forall i, j | 0 <= i < j < n :: records[i].key != records[j].key
      invariant forall i | 0 <= i < n :: ValidRecord(records[i])
    {
      var record := records[n];
      if record.key in keys {
        return false;
      }
      if !ValidRecord(record) {
        return false;
      }
      keys := keys + {record.key};
    }
    return true;
  }

  method PruneRecords(records: seq<Record>, now: nat) returns (kept: seq<Record>, changed: bool)
    ensures kept == Prune(records, now)
    ensures changed <==> kept != records
  {
    kept := [];
    for n := 0 to |records|
      invariant kept == Prune(records[..n], now) && |kept| <= n
      invariant |kept| == n ==> kept == records[..n]
    {
      assert records[..n + 1][..n] == records[..n];
      assert records[..n + 1] == records[..n] + [records[n]];
      if records[n].retained > now {
        kept := kept + [records[n]];
      }
    }
    assert records[..|records|] == records;
    changed := |kept| != |records|;
  }

  method FindIndex(records: seq<Record>, key: Key) returns (i: nat)
    ensures i == IndexOf(records, key)
  {
    i := 0;
    while i < |records| && records[i].key != key
      invariant i <= |records| && forall j | 0 <= j < i :: records[j].key != key
    {
      i := i + 1;
    }
    FirstIndexIsUnique(records, key, i);
  }

  lemma FirstIndexIsUnique(records: seq<Record>, key: Key, i: nat)
    requires i <= |records| && (i < |records| ==> records[i].key == key)
    requires forall j | 0 <= j < i :: records[j].key != key
    ensures i == IndexOf(records, key)
  {
  }

  class PersistentIssuanceResults {
    const file: IssuanceFile
    var records: seq<Record>

    /** Opens the shared file, or fails; the cached records are whatever was loaded. */
    constructor (file: IssuanceFile)
      ensures this.file == file
    {
      this.file := file;
      records := file.records;
    }

    method LoadRecords(fault: Fault) returns (loaded: Result<seq<Record>, IssuanceError>)
      ensures loaded == Load(file.records, fault)
    {
      if fault == LockFails || fault == ReadFails {
        return Err(ConfigurationRead);
      }
      var ok := ValidateRecords(file.records);
      return if ok then Ok(file.records) else Err(ConfigurationRead);
    }

    method PersistRecords(changed: seq<Record>, fault: Fault) returns (ok: bool)
      modifies file
      ensures (file.records, ok) == Persist(old(file.records), changed, fault)
    {
      ok := fault != WriteFails;
      if ok {
        file.records := changed;
      }
    }

    /** The result depends on the shared file alone, never on what this handle had cached. */
    method Reconcile(key: Key, now: nat, fault: Fault) returns (result: Result<Option<Record>, IssuanceError>)
      modifies this`records, file
      ensures (file.records, result) == Issuance.Reconcile(old(file.records), key, now, fault)
    {
      var loaded := LoadRecords(fault);
      if loaded.Err? {
        return Err(loaded.error);
      }
      var kept, changed := PruneRecords(loaded.value, now);
      var i := FindIndex(kept, key);
      if changed {
        var ok := PersistRecords(kept, fault);
        if !ok {
          return Err(ConfigurationRead);
        }
      }
      records := kept;
      return Ok(if i < |kept| then Some(kept[i]) else None);
    }

    method ResumePending(kept: seq<Record>, changed: bool, existing: Record, app: Text, configuration: nat, fault: Fault)
      returns (result: Result<Begun, IssuanceError>)
      requires changed <==> kept != file.records
      modifies this`records, file
      ensures (file.records, result) == Resume(old(file.records), kept, existing, app, configuration, fault)
    {
      if existing.app != app {
        return Err(AppMismatch);
      }
      if existing.configuration != Some(configuration) {
        return Err(GenerationMismatch);
      }
      if changed {
        var ok := PersistRecords(kept, fault);
        if !ok {
          return Err(ConfigurationRead);
        }
      }
      records := kept;
      return Ok(Existing(existing));
    }

    method BeginPending(key: Key, app: Text, configuration: nat, expires: nat, now: nat, fault: Fault)
      returns (result: Result<Begun, IssuanceError>)
      modifies this`records, file
      ensures (file.records, result) == Issuance.BeginPending(old(file.records), key, app, configuration, expires, now, fault)
    {
      var refusal := BeginRefusal(key, app, configuration, expires, now);
      if refusal.Some? {
        return Err(refusal.value);
      }
      var loaded := LoadRecords(fault);
      if loaded.Err? {
        return Err(loaded.error);
      }
      var kept, changed := PruneRecords(loaded.value, now);
      var i := FindIndex(kept, key);
      if i < |kept| {
        result := ResumePending(kept, changed, kept[i], app, configuration, fault);
        return;
      }
      if exists j :: 0 <= j < |kept| && kept[j].key.auth == key.auth {
        return Err(BoundToAnotherCsr);
      }
      if |kept| >= MAX_RECORDS {
        return Err(ResourceLimit);
      }
      var record := NewRecord(key, app, configuration, expires);
      kept := kept + [record];
      var ok := PersistRecords(kept, fault);
      if !ok {
        return Err(ConfigurationRead);
      }
      records := kept;
      return Ok(Created(record));
    }

    /** The common shape of attach, finalize and reject. */
    method EditRecord(key: Key, edit: Edit, now: nat, fault: Fault) returns (result: Result<Record, IssuanceError>)
      modifies this`records, file
      ensures (file.records, result) == Issuance.EditRecord(old(file.records), key, edit, now, fault)
    {
      var refusal := EditRefusal(edit);
      if refusal.Some? {
        return Err(refusal.value);
      }
      var loaded := LoadRecords(fault);
      if loaded.Err? {
        return Err(loaded.error);
      }
      var kept, _ := PruneRecords(loaded.value, now);
      var i := FindIndex(kept, key);
      if i == |kept| {
        return Err(ConfigurationRead);
      }
      var change := ChangeOf(kept[i], edit, now);
      if change.Refuse? {
        return Err(change.error);
      }
      if change.Keep? {
        return Ok(kept[i]);
      }
      kept := kept[i := change.record];
      var ok := PersistRecords(kept, fault);
      if !ok {
        return Err(ConfigurationRead);
      }
      records := kept;
      return Ok(change.record);
    }
  }
}
