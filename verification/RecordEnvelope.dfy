/** The integrity-checked envelope of one authority record (src/authority_store.rs). */
module RecordEnvelope {
  import opened Common
  import opened Bytes
  import opened Base64
  import opened AuthorityStore

  const AUTHORITY_SCHEMA_VERSION: nat := 1
  const MAX_AUTHORITY_PAYLOAD_BYTES: nat := 1024 * 1024
  const MAX_STORAGE_KEY_BYTES: nat := 128
  const MAX_LABEL_BYTES: nat := 64

  /** "development-insecure" */
  const PROTECTION: Text :=
    [100, 101, 118, 101, 108, 111, 112, 109, 101, 110, 116, 45, 105, 110, 115, 101, 99, 117, 114, 101]

  /** "herdr-dog/authority-record/v1" */
  const DIGEST_DOMAIN: Text :=
    [104, 101, 114, 100, 114, 45, 100, 111, 103, 47, 97, 117, 116, 104, 111, 114, 105, 116, 121, 45, 114, 101, 99, 111, 114, 100, 47, 118, 49]

  datatype Envelope<D> = Envelope(
    key: Text,
    schemaVersion: nat,
    kind: Text,
    protection: Text,
    revision: nat,
    generation: nat,
    state: Text,
    payloadLen: nat,
    integrity: D,
    payload: Text)

  datatype Record = Record(revision: nat, generation: nat, state: Text, payload: Text)

  predicate Alphanumeric(b: Byte) {
    48 <= b < 58 || 65 <= b < 91 || 97 <= b < 123
  }

  predicate KeyValid(key: Text) {
    0 < |key| <= MAX_STORAGE_KEY_BYTES && forall i | 0 <= i < |key| :: Alphanumeric(key[i]) || key[i] in {47, 58, 46, 95, 45}
  }

  predicate LabelValid(value: Text) {
    0 < |value| <= MAX_LABEL_BYTES && forall i | 0 <= i < |value| :: Alphanumeric(value[i]) || value[i] in {95, 45}
  }

  /** What the running hasher is fed for one record. */
  function DigestInput<D>(e: Envelope<D>, payload: Text): Text
    requires Widths(e, payload)
  {
    DIGEST_DOMAIN + Prefixed(e.key) + Prefixed(e.kind) + Prefixed(e.protection) + Prefixed(e.state)
    + BigEndian(4, e.schemaVersion) + BigEndian(8, e.revision) + BigEndian(8, e.generation) + Prefixed(payload)
  }

  /** The machine widths of the envelope's fields. */
  predicate Widths<D>(e: Envelope<D>, payload: Text) {
    && |e.key| < Span(8) && |e.kind| < Span(8) && |e.protection| < Span(8) && |e.state| < Span(8) && |payload| < Span(8)
    && e.schemaVersion < Span(4) && e.revision < Span(8) && e.generation < Span(8)
  }

  /** The envelope a commit writes. */
  function Seal<D>(hash: Text -> D, blank: D, key: Text, kind: Text, record: Record): Envelope<D>
    requires Committable(key, kind, record)
  {
    var e := Unsealed(blank, key, kind, record);
    SealableWidths(blank, key, kind, record);
    e.(integrity := hash(DigestInput(e, record.payload)))
  }

  function Unsealed<D>(blank: D, key: Text, kind: Text, record: Record): Envelope<D> {
    Envelope(key, AUTHORITY_SCHEMA_VERSION, kind, PROTECTION, record.revision, record.generation, record.state,
             |record.payload|, blank, Encode(Standard, record.payload))
  }

  predicate Committable(key: Text, kind: Text, record: Record) {
    && KeyValid(key) && LabelValid(kind) && LabelValid(record.state)
    && 0 < record.revision <= U64_MAX && 0 < record.generation <= U64_MAX
    && |record.payload| <= MAX_AUTHORITY_PAYLOAD_BYTES
  }

  lemma SealableWidths<D>(blank: D, key: Text, kind: Text, record: Record)
    requires Committable(key, kind, record)
    ensures Widths(Unsealed(blank, key, kind, record), record.payload)
  {
    Spans();
  }

  /** Decode and verify one persisted envelope whose integers fit their machine widths. */
  function DecodeRecord<D(==)>(hash: Text -> D, e: Envelope<D>, key: Text, kind: Text): Result<Record, StoreError>
    requires Widths(e, [])
  {
    if e.key != key || e.schemaVersion != AUTHORITY_SCHEMA_VERSION || e.kind != kind || e.protection != PROTECTION
       || e.revision == 0 || e.generation == 0 || e.payloadLen > MAX_AUTHORITY_PAYLOAD_BYTES then Err(Corrupt)
    else if !(KeyValid(e.key) && LabelValid(e.kind) && LabelValid(e.state)) then Err(Invalid)
    else
      var payload := Decode(Standard, e.payload);
      if payload.None? || |payload.value| != e.payloadLen then Err(Corrupt)
      else
        Spans();
        if e.integrity != hash(DigestInput(e, payload.value)) then Err(Corrupt)
        else Ok(Record(e.revision, e.generation, e.state, payload.value))
  }

  /** A committed envelope decodes to the committed record. */
  lemma DecodeOfSeal<D>(hash: Text -> D, blank: D, key: Text, kind: Text, record: Record)
    requires Committable(key, kind, record)
    ensures Widths(Seal(hash, blank, key, kind, record), [])
    ensures DecodeRecord(hash, Seal(hash, blank, key, kind, record), key, kind) == Ok(record)
  {
    Spans();
    DecodeOfEncode(Standard, record.payload);
    var e := Seal(hash, blank, key, kind, record);
    assert DigestInput(e, record.payload) == DigestInput(Unsealed(blank, key, kind, record), record.payload);
  }

  /** Nothing but the envelope a commit of that very record would have written is accepted. */
  lemma AcceptedIsSealed<D>(hash: Text -> D, e: Envelope<D>, key: Text, kind: Text)
    requires Widths(e, []) && DecodeRecord(hash, e, key, kind).Ok?
    ensures var record := DecodeRecord(hash, e, key, kind).value;
      && Committable(key, kind, record)
      && forall blank :: e == Seal(hash, blank, key, kind, record)
  {
    Spans();
    EncodeOfDecode(Standard, e.payload);
    var record := DecodeRecord(hash, e, key, kind).value;
    forall blank: D ensures e == Seal(hash, blank, key, kind, record) {
      assert DigestInput(e, record.payload) == DigestInput(Unsealed(blank, key, kind, record), record.payload);
    }
  }

  // ---------------------------------------------------------------- the digest input is unambiguous

  function Labels<D>(e: Envelope<D>): seq<Text> {
    [e.key, e.kind, e.protection, e.state]
  }

  function PrefixedAll(labels: seq<Text>): Text
    requires forall i | 0 <= i < |labels| :: |labels[i]| < Span(8)
  {
    if labels == [] then [] else PrefixedAll(labels[..|labels| - 1]) + Prefixed(labels[|labels| - 1])
  }

  function NumbersAndPayload<D>(e: Envelope<D>, payload: Text): Text
    requires Widths(e, payload)
  {
    BigEndian(4, e.schemaVersion) + (BigEndian(8, e.revision) + (BigEndian(8, e.generation) + Prefixed(payload)))
  }

  lemma TailsAgree<D>(e: Envelope<D>, payload: Text, f: Envelope<D>, other: Text)
    requires Widths(e, payload) && Widths(f, other)
    requires NumbersAndPayload(e, payload) == NumbersAndPayload(f, other)
    ensures payload == other
    ensures e.schemaVersion == f.schemaVersion && e.revision == f.revision && e.generation == f.generation
  {
    var e7, f7 := BigEndian(8, e.generation) + Prefixed(payload), BigEndian(8, f.generation) + Prefixed(other);
    BigEndianSplits(4, e.schemaVersion, f.schemaVersion, BigEndian(8, e.revision) + e7, BigEndian(8, f.revision) + f7);
    BigEndianSplits(8, e.revision, f.revision, e7, f7);
    BigEndianSplits(8, e.generation, f.generation, Prefixed(payload), Prefixed(other));
    assert Prefixed(payload) + [] == Prefixed(payload) && Prefixed(other) + [] == Prefixed(other);
    PrefixedSplits(payload, other, [], []);
  }

  /** Equal digest inputs come from equal fields: no two records are confused before hashing. */
  lemma DigestInputsAgree<D>(e: Envelope<D>, payload: Text, f: Envelope<D>, other: Text)
    requires Widths(e, payload) && Widths(f, other)
    requires DigestInput(e, payload) == DigestInput(f, other)
    ensures payload == other
    ensures e.key == f.key && e.kind == f.kind && e.protection == f.protection && e.state == f.state
    ensures e.schemaVersion == f.schemaVersion && e.revision == f.revision && e.generation == f.generation
  {
    var e5, f5 := NumbersAndPayload(e, payload), NumbersAndPayload(f, other);
    var e4, f4 := Prefixed(e.state) + e5, Prefixed(f.state) + f5;
    var e3, f3 := Prefixed(e.protection) + e4, Prefixed(f.protection) + f4;
    var e2, f2 := Prefixed(e.kind) + e3, Prefixed(f.kind) + f3;
    var e1, f1 := Prefixed(e.key) + e2, Prefixed(f.key) + f2;
    Regrouped(e, payload);
    Regrouped(f, other);
    assert (DIGEST_DOMAIN + e1)[|DIGEST_DOMAIN|..] == e1 && (DIGEST_DOMAIN + f1)[|DIGEST_DOMAIN|..] == f1;
    PrefixedSplits(e.key, f.key, e2, f2);
    PrefixedSplits(e.kind, f.kind, e3, f3);
    PrefixedSplits(e.protection, f.protection, e4, f4);
    PrefixedSplits(e.state, f.state, e5, f5);
    TailsAgree(e, payload, f, other);
  }

  lemma Regrouped<D>(e: Envelope<D>, payload: Text)
    requires Widths(e, payload)
    ensures DigestInput(e, payload)
         == DIGEST_DOMAIN + (Prefixed(e.key) + (Prefixed(e.kind) + (Prefixed(e.protection) + (Prefixed(e.state)
            + NumbersAndPayload(e, payload)))))
  {
  }

  ghost predicate CollisionFree<D(!new)>(hash: Text -> D) {
    forall a, b :: hash(a) == hash(b) ==> a == b
  }

  /** With a collision-free digest, two accepted envelopes that carry the same digest are the same envelope. */
  lemma IntegrityIdentifiesEnvelope<D(!new)>(hash: Text -> D, e: Envelope<D>, f: Envelope<D>, key: Text, kind: Text, key': Text, kind': Text)
    requires CollisionFree(hash) && Widths(e, []) && Widths(f, [])
    requires DecodeRecord(hash, e, key, kind).Ok? && DecodeRecord(hash, f, key', kind').Ok?
    requires e.integrity == f.integrity
    ensures e == f
  {
    Spans();
    var p, q := DecodeRecord(hash, e, key, kind).value.payload, DecodeRecord(hash, f, key', kind').value.payload;
    DigestInputsAgree(e, p, f, q);
    EncodeOfDecode(Standard, e.payload);
    EncodeOfDecode(Standard, f.payload);
  }

  // ---------------------------------------------------------------- the running hasher

  /** Feeds the hasher label by label, each after its length. */
  method FeedLabels(start: Text, labels: seq<Text>) returns (fed: Text)
    requires forall i | 0 <= i < |labels| :: |labels[i]| < Span(8)
    ensures fed == start + PrefixedAll(labels)
  {
    fed := start;
    for n := 0 to |labels|
      invariant fed == start + PrefixedAll(labels[..n])
    {
      assert labels[..n + 1][..n] == labels[..n];
      fed := fed + BigEndian(8, |labels[n]|);
      fed := fed + labels[n];
    }
    assert labels[..|labels|] == labels;
  }

  method FeedNumbersAndPayload<D>(start: Text, e: Envelope<D>, payload: Text) returns (fed: Text)
    requires Widths(e, payload)
    ensures fed == start + BigEndian(4, e.schemaVersion) + BigEndian(8, e.revision) + BigEndian(8, e.generation) + Prefixed(payload)
  {
    fed := start + BigEndian(4, e.schemaVersion);
    fed := fed + BigEndian(8, e.revision);
    fed := fed + BigEndian(8, e.generation);
    ghost var numbers := fed;
    fed := fed + BigEndian(8, |payload|);
    fed := fed + payload;
    assert fed == numbers + Prefixed(payload);
  }

  method FeedDigest<D>(e: Envelope<D>, payload: Text) returns (fed: Text)
    requires Widths(e, payload)
    ensures fed == DigestInput(e, payload)
  {
    fed := FeedLabels(DIGEST_DOMAIN, Labels(e));
    LabelsFed(e);
    fed := FeedNumbersAndPayload(fed, e, payload);
  }

  lemma LabelsFed<D>(e: Envelope<D>)
    requires Widths(e, [])
    ensures DIGEST_DOMAIN + PrefixedAll(Labels(e))
         == DIGEST_DOMAIN + Prefixed(e.key) + Prefixed(e.kind) + Prefixed(e.protection) + Prefixed(e.state)
  {
    FourLabels(e);
    Reassociated(DIGEST_DOMAIN, Prefixed(e.key), Prefixed(e.kind), Prefixed(e.protection), Prefixed(e.state));
  }

  lemma Reassociated(a: Text, b: Text, c: Text, d: Text, e: Text)
    ensures a + (b + c + d + e) == a + b + c + d + e
  {
  }

  lemma FourLabels<D>(e: Envelope<D>)
    requires Widths(e, [])
    ensures PrefixedAll(Labels(e)) == Prefixed(e.key) + Prefixed(e.kind) + Prefixed(e.protection) + Prefixed(e.state)
  {
    var labels := Labels(e);
    assert labels[..3] == [e.key, e.kind, e.protection];
    assert [e.key, e.kind, e.protection][..2] == [e.key, e.kind];
    assert [e.key, e.kind][..1] == [e.key];
    assert [e.key][..0] == [];
    assert PrefixedAll([]) == [];
    assert PrefixedAll([e.key]) == Prefixed(e.key);
    assert PrefixedAll([e.key, e.kind]) == Prefixed(e.key) + Prefixed(e.kind);
    assert PrefixedAll([e.key, e.kind, e.protection]) == Prefixed(e.key) + Prefixed(e.kind) + Prefixed(e.protection);
  }
}
