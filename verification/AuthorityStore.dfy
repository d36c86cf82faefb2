/** The compare-and-commit record files of src/authority_store.rs, one operation at a time. */
module AuthorityStore {
  import opened Common

  /** Sanitized outcomes of the record backend. */
  datatype StoreError = Invalid | Corrupt | Unavailable | PersistenceFailed | Conflict | Unknown

  datatype DeleteOutcome = Deleted | Missing

  /** One decoded record; every caller in the Relay commits the state label "active". */
  datatype StoredRecord<P> = StoredRecord(revision: nat, generation: nat, payload: P)

  /** What the host directory holds for one fixed filename. */
  datatype FileState<P> = FileState(record: Option<StoredRecord<P>>, locked: bool)

  /** The host operation that fails during one call. */
  datatype Fault =
    | NoFault
    | DirectoryFails   // the directory cannot be created or inspected
    | LockFails        // the lock file cannot be created
    | LockLeaks        // the lock file is created, but writing or syncing it fails
    | ReadFails        // the record file cannot be read
    | WriteFails       // the temporary file cannot be written and synced
    | RenameFails      // the replacement is refused
    | SyncFails        // the replacement happened, the directory sync failed

  /** A fault, and whether the guard fails to remove the lock file afterwards. */
  datatype Faults = Faults(at: Fault, lockStays: bool)

  function RevisionOf<P>(record: Option<StoredRecord<P>>): nat {
    if record.Some? then record.value.revision else 0
  }

  function GenerationOf<P>(record: Option<StoredRecord<P>>): nat {
    if record.Some? then record.value.generation else 0
  }

  function LoadFile<P>(file: FileState<P>, fault: Fault): Result<Option<StoredRecord<P>>, StoreError> {
    if fault == DirectoryFails || file.locked || fault == ReadFails then Err(Unavailable)
    else Ok(file.record)
  }

  /** Compare-and-commit: the file afterwards and what the caller is told. */
  function CommitFile<P>(file: FileState<P>, generation: nat, payload: P, expected: nat, faults: Faults)
    : (FileState<P>, Result<nat, StoreError>)
  {
    if generation == 0 then (file, Err(Invalid))
    else if faults.at == DirectoryFails || file.locked then (file, Err(Unavailable))
    else if faults.at == LockFails then (file, Err(PersistenceFailed))
    else if faults.at == LockLeaks then (file.(locked := true), Err(PersistenceFailed))
    else
      var released := file.(locked := faults.lockStays);
      var current := RevisionOf(file.record);
      if faults.at == ReadFails then (released, Err(Unavailable))
      else if current != expected then (released, Err(Conflict))
      else if current >= U64_MAX then (released, Err(Unknown))
      else if faults.at == WriteFails then (released, Err(PersistenceFailed))
      else if faults.at == RenameFails then (released, Err(Unknown))
      else
        (released.(record := Some(StoredRecord(current + 1, generation, payload))),
         if faults.at == SyncFails then Err(Unknown) else Ok(current + 1))
  }

  function DeleteFile<P>(file: FileState<P>, expected: nat, faults: Faults)
    : (FileState<P>, Result<DeleteOutcome, StoreError>)
  {
    if faults.at == DirectoryFails || file.locked then (file, Err(Unavailable))
    else if faults.at == LockFails then (file, Err(PersistenceFailed))
    else if faults.at == LockLeaks then (file.(locked := true), Err(PersistenceFailed))
    else
      var released := file.(locked := faults.lockStays);
      if faults.at == ReadFails then (released, Err(Unavailable))
      else if file.record.None? then (released, Ok(Missing))
      else if file.record.value.revision != expected then (released, Err(Conflict))
      else if faults.at == RenameFails then (released, Err(Unknown))
      else
        (released.(record := None), if faults.at == SyncFails then Err(Unknown) else Ok(Deleted))
  }

  /**
   * The only effect a commit can have on the record: nothing, or the successor of the expected
   * revision. A reported revision is always installed; an error may hide an installed record only
   * when it is `Unknown`.
   */
  lemma CommitInstallsSuccessorOrNothing<P>(file: FileState<P>, generation: nat, payload: P, expected: nat, faults: Faults)
    ensures var (after, result) := CommitFile(file, generation, payload, expected, faults);
      var installed := Some(StoredRecord(expected + 1, generation, payload));
      && (after.record == file.record || (after.record == installed && RevisionOf(file.record) == expected))
      && (result.Ok? ==> after.record == installed && result.value == expected + 1)
      && (result.Err? && result.error != Unknown ==> after.record == file.record)
      && (file.locked ==> after == file && result.Err?)
  {
  }

  /** The store handle over one file of one directory. */
  class FileAuthorityStore<P> {
    var record: Option<StoredRecord<P>>
    var locked: bool

    ghost function State(): FileState<P>
      reads this
    {
      FileState(record, locked)
    }

    constructor ()
      ensures State() == FileState(None, false)
    {
      record, locked := None, false;
    }

    method Load(fault: Fault) returns (result: Result<Option<StoredRecord<P>>, StoreError>)
      ensures result == LoadFile(State(), fault)
    {
      if fault == DirectoryFails {
        return Err(Unavailable);
      }
      if locked {
        return Err(Unavailable);
      }
      result := ReadRecord(fault);
    }

    method ReadRecord(fault: Fault) returns (result: Result<Option<StoredRecord<P>>, StoreError>)
      ensures result == if fault == ReadFails then Err(Unavailable) else Ok(record)
    {
      if fault == ReadFails {
        return Err(Unavailable);
      }
      return Ok(record);
    }

    /** Creates the lock file exclusively; a failed write leaves it behind. */
    method AcquireLock(fault: Fault) returns (result: Result<(), StoreError>)
      modifies this`locked
      ensures locked == (old(locked) || fault != LockFails)
      ensures result == if old(locked) then Err(Unavailable)
                        else if fault == LockFails || fault == LockLeaks then Err(PersistenceFailed)
                        else Ok(())
    {
      if locked {
        return Err(Unavailable);
      }
      if fault == LockFails {
        return Err(PersistenceFailed);
      }
      locked := true;
      if fault == LockLeaks {
        return Err(PersistenceFailed);
      }
      return Ok(());
    }

    method WriteRecord(next: StoredRecord<P>, fault: Fault) returns (result: Result<(), StoreError>)
      modifies this`record
      ensures record == if fault == WriteFails || fault == RenameFails then old(record) else Some(next)
      ensures result == if fault == WriteFails then Err(PersistenceFailed)
                        else if fault == RenameFails || fault == SyncFails then Err(Unknown)
                        else Ok(())
    {
      if fault == WriteFails {
        return Err(PersistenceFailed);
      }
      if fault == RenameFails {
        return Err(Unknown);
      }
      record := Some(next);
      if fault == SyncFails {
        return Err(Unknown);
      }
      return Ok(());
    }

    method Commit(generation: nat, payload: P, expected: nat, faults: Faults)
      returns (result: Result<nat, StoreError>)
      modifies this
      ensures (State(), result) == CommitFile(old(State()), generation, payload, expected, faults)
    {
      if generation == 0 {
        return Err(Invalid);
      }
      if faults.at == DirectoryFails {
        return Err(Unavailable);
      }
      var guard := AcquireLock(faults.at);
      if guard.Err? {
        return Err(guard.error);
      }
      result := CommitLocked(generation, payload, expected, faults.at);
      locked := faults.lockStays;
    }

    method CommitLocked(generation: nat, payload: P, expected: nat, fault: Fault)
      returns (result: Result<nat, StoreError>)
      requires locked && generation != 0
      requires fault !in {DirectoryFails, LockFails, LockLeaks}
      modifies this`record
      ensures var (after, told) := CommitFile(FileState(old(record), false), generation, payload, expected, Faults(fault, true));
              State() == after && result == told
    {
      var current := ReadRecord(fault);
      if current.Err? {
        return Err(current.error);
      }
      var revision := RevisionOf(current.value);
      if revision != expected {
        return Err(Conflict);
      }
      var next := CheckedAdd(revision, 1);
      if next.None? {
        return Err(Unknown);
      }
      var written := WriteRecord(StoredRecord(next.value, generation, payload), fault);
      if written.Err? {
        return Err(written.error);
      }
      return Ok(next.value);
    }

    method Delete(expected: nat, faults: Faults) returns (result: Result<DeleteOutcome, StoreError>)
      modifies this
      ensures (State(), result) == DeleteFile(old(State()), expected, faults)
    {
      if faults.at == DirectoryFails {
        return Err(Unavailable);
      }
      var guard := AcquireLock(faults.at);
      if guard.Err? {
        return Err(guard.error);
      }
      var current := ReadRecord(faults.at);
      if current.Err? {
        result := Err(current.error);
      } else if current.value.None? {
        result := Ok(Missing);
      } else if current.value.value.revision != expected {
        result := Err(Conflict);
      } else if faults.at == RenameFails {
        result := Err(Unknown);
      } else {
        record := None;
        result := if faults.at == SyncFails then Err(Unknown) else Ok(Deleted);
      }
      locked := faults.lockStays;
    }
  }
}
