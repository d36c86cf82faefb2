/** The registry object of src/enrollment.rs and the persistent handle of src/allowlist.rs, updated in place. */
module PersistentAllowlist {
  import opened Common
  import opened Allowlist

  class AllowlistRegistry {
    var generation: nat
    var entries: map<App, Entry>

    ghost function Model(): Registry
      reads this
    {
      Registry(generation, entries)
    }

    constructor (registry: Registry)
      ensures Model() == registry
    {
      generation, entries := registry.generation, registry.entries;
    }

    method EnrollWithState(certificate: Certificate, state: EntryState) returns (result: Result<Entry, AllowlistError>)
      modifies this
      ensures (Model(), result) == Enroll(old(Model()), certificate, state)
    {
      if certificate.app in entries
         || exists app | app in entries :: entries[app].fingerprint == certificate.fingerprint && entries[app].state == Active {
        return Err(Duplicate);
      }
      var next := CheckedAdd(generation, 1);
      if next.None? {
        return Err(Persistence);
      }
      var entry := Entry(certificate.fingerprint, state, next.value, certificate.notAfter);
      generation := next.value;
      entries := entries[certificate.app := entry];
      return Ok(entry);
    }

    method Activate(app: App, fingerprint: Fingerprint) returns (result: Result<Entry, AllowlistError>)
      modifies this`entries
      ensures (Model(), result) == Allowlist.Activate(old(Model()), app, fingerprint)
    {
      if app !in entries {
        return Err(NotFound);
      }
      var entry := entries[app];
      if entry.state != Pending || entry.fingerprint != fingerprint {
        return Err(Unauthorized);
      }
      entry := entry.(state := Active);
      entries := entries[app := entry];
      return Ok(entry);
    }

    /** Denies one App; every entry takes the new generation. */
    method Revoke(app: App) returns (result: Result<nat, AllowlistError>)
      modifies this
      ensures (Model(), result) == Allowlist.Revoke(old(Model()), app)
    {
      if app !in entries {
        return Err(NotFound);
      }
      if entries[app].state == Revoked {
        return Err(AlreadyRevoked);
      }
      var next := CheckedAdd(generation, 1);
      if next.None? {
        return Err(Persistence);
      }
      var before := entries;
      var todo := entries.Keys;
      while todo != {}
        invariant todo <= before.Keys && generation == old(generation)
        invariant entries.Keys == before.Keys
        invariant forall a | a in before ::
          entries[a] == if a in todo then before[a] else RevokedEntry(before[a], next.value, a == app)
        decreases |todo|
      {
        var a :| a in todo;
        var value := entries[a].(generation := next.value);
        if a == app {
          value := value.(state := Revoked);
        }
        entries := entries[a := value];
        todo := todo - {a};
      }
      assert entries == Allowlist.Revoke(old(Model()), app).0.entries;
      generation := next.value;
      return Ok(next.value);
    }
  }

  /** The protected file every handle locks. */
  class AllowlistFile {
    var registry: Registry

    constructor ()
      ensures registry == NEW_REGISTRY
    {
      registry := NEW_REGISTRY;
    }
  }

  class PersistentAllowlist {
    const file: AllowlistFile
    var registry: Registry

    constructor (file: AllowlistFile)
      ensures this.file == file && registry == file.registry
    {
      this.file := file;
      registry := file.registry;
    }

    method LoadRegistry(fault: Fault) returns (loaded: Result<Registry, AllowlistError>)
      ensures loaded == Load(file.registry, fault)
    {
      if fault == LockFails || fault == ReadFails {
        return Err(Persistence);
      }
      return if ValidPersisted(file.registry) then Ok(file.registry) else Err(Persistence);
    }

    /** One locked transaction; what this handle had cached plays no part. */
    method Transact(edit: Edit, fault: Fault) returns (result: Result<Registry, AllowlistError>)
      modifies this`registry, file
      ensures (file.registry, result) == Allowlist.Transact(old(file.registry), edit, fault)
      ensures registry == if result.Ok? then result.value else old(registry)
    {
      var loaded := LoadRegistry(fault);
      if loaded.Err? {
        return Err(loaded.error);
      }
      var next := new AllowlistRegistry(loaded.value);
      var refusal := None;
      match edit {
        case Add(certificate, state) =>
          var enrolled := next.EnrollWithState(certificate, state);
          refusal := if enrolled.Err? then Some(enrolled.error) else None;
        case Confirm(app, fingerprint) =>
          var activated := next.Activate(app, fingerprint);
          refusal := if activated.Err? then Some(activated.error) else None;
        case Deny(app) =>
          var revoked := next.Revoke(app);
          refusal := if revoked.Err? then Some(revoked.error) else None;
      }
      if refusal.Some? {
        return Err(refusal.value);
      }
      if fault == WriteFails {
        return Err(Persistence);
      }
      file.registry := Registry(next.generation, next.entries);
      registry := file.registry;
      return Ok(registry);
    }

    method Reload(fault: Fault) returns (ok: bool)
      modifies this`registry
      ensures ok <==> Load(file.registry, fault).Ok?
      ensures registry == if ok then file.registry else old(registry)
    {
      var loaded := LoadRegistry(fault);
      if loaded.Err? {
        return false;
      }
      registry := loaded.value;
      return true;
    }
  }
}
