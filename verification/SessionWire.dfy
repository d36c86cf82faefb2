/** The HDQS session binding and response (src/quic_wire.rs), and reading a binding from a stream. */
module SessionWire {
  import opened Common
  import opened Bytes
  import opened Sessions

  /** "HDQS" */
  const HDQS_MAGIC: Text := [72, 68, 81, 83]
  const VERSION: nat := 1
  const PREFIX_BYTES: nat := 33
  const TAIL_BYTES: nat := 64
  const RESPONSE_BYTES: nat := 20

  datatype WireError =
    | FrameTooShort | InvalidMagic | UnsupportedVersion | LengthMismatch | InvalidField | InvalidSession | InvalidStatus

  datatype Binding = Binding(
    handle: nat, configuration: nat, relay: nat, epoch: nat, session: Session, fingerprint: Text, token: Text)

  /** Field widths and the session grammar that the Rust types carry. */
  predicate WellTyped(b: Binding) {
    && b.handle < Span(2) && b.configuration < Span(8) && b.relay < Span(8) && b.epoch < Span(8)
    && ValidSession(b.session) && |b.fingerprint| == 32 && |b.token| == 32
  }

  function Prefix(b: Binding): (r: Text)
    requires WellTyped(b)
    ensures |r| == PREFIX_BYTES
  {
    Spans();
    HDQS_MAGIC + BigEndian(2, VERSION) + BigEndian(2, b.handle) + BigEndian(8, b.configuration) + BigEndian(8, b.relay)
    + BigEndian(8, b.epoch) + [|b.session|]
  }

  function Encode(b: Binding): Result<Text, WireError>
    requires WellTyped(b)
  {
    if b.handle == 0 then Err(InvalidField) else Ok(Prefix(b) + b.session + b.fingerprint + b.token)
  }

  function Decode(bytes: Text): Result<Binding, WireError> {
    if |bytes| < PREFIX_BYTES + TAIL_BYTES then Err(FrameTooShort)
    else if bytes[..4] != HDQS_MAGIC then Err(InvalidMagic)
    else if FromBigEndian(bytes[4..6]) != VERSION then Err(UnsupportedVersion)
    else
      var handle, name := FromBigEndian(bytes[6..8]), bytes[32] as nat;
      if handle == 0 || name == 0 || name > MAX_SESSION_BYTES then Err(InvalidField)
      else if |bytes| != PREFIX_BYTES + name + TAIL_BYTES then Err(LengthMismatch)
      else if !ValidSession(bytes[33..33 + name]) then Err(InvalidSession)
      else
        Ok(Binding(handle, FromBigEndian(bytes[8..16]), FromBigEndian(bytes[16..24]), FromBigEndian(bytes[24..32]),
                   bytes[33..33 + name], bytes[33 + name..65 + name], bytes[65 + name..]))
  }

  /** Where each field of the fixed prefix lies. */
  lemma PrefixLayout(b: Binding)
    requires WellTyped(b)
    ensures var p := Prefix(b);
      && p[..4] == HDQS_MAGIC && p[4..6] == BigEndian(2, VERSION) && p[6..8] == BigEndian(2, b.handle)
      && p[8..16] == BigEndian(8, b.configuration) && p[16..24] == BigEndian(8, b.relay) && p[24..32] == BigEndian(8, b.epoch)
      && p[32] == |b.session|
  {
    Spans();
  }

  lemma PrefixOfStream(p: Text, rest: Text)
    requires |p| == PREFIX_BYTES
    ensures var bytes := p + rest;
      && bytes[..4] == p[..4] && bytes[4..6] == p[4..6] && bytes[6..8] == p[6..8] && bytes[8..16] == p[8..16]
      && bytes[16..24] == p[16..24] && bytes[24..32] == p[24..32] && bytes[32] == p[32] && bytes[33..] == rest
  {
  }

  lemma PrefixParts(b: Binding, rest: Text)
    requires WellTyped(b)
    ensures var bytes := Prefix(b) + rest;
      && bytes[..4] == HDQS_MAGIC && FromBigEndian(bytes[4..6]) == VERSION && FromBigEndian(bytes[6..8]) == b.handle
      && FromBigEndian(bytes[8..16]) == b.configuration && FromBigEndian(bytes[16..24]) == b.relay
      && FromBigEndian(bytes[24..32]) == b.epoch && bytes[32] == |b.session| && bytes[33..] == rest
  {
    Spans();
    PrefixLayout(b);
    PrefixOfStream(Prefix(b), rest);
    FromBigEndianOfBigEndian(2, VERSION);
    FromBigEndianOfBigEndian(2, b.handle);
    FromBigEndianOfBigEndian(8, b.configuration);
    FromBigEndianOfBigEndian(8, b.relay);
    FromBigEndianOfBigEndian(8, b.epoch);
  }

  /** Exactly the bindings with a handle are encoded, and they are read back. */
  lemma DecodeOfEncode(b: Binding)
    requires WellTyped(b)
    ensures if b.handle == 0 then Encode(b) == Err(InvalidField) else Encode(b).Ok? && Decode(Encode(b).value) == Ok(b)
  {
    if b.handle != 0 {
      NamedIsReadBack(b);
    }
  }

  lemma NamedIsReadBack(b: Binding)
    requires WellTyped(b) && b.handle != 0
    ensures Decode(Encode(b).value) == Ok(b)
  {
    var bytes, rest := Encode(b).value, b.session + b.fingerprint + b.token;
    assert bytes == Prefix(b) + rest;
    PrefixParts(b, rest);
    var name := |b.session|;
    assert bytes[33..33 + name] == b.session && bytes[33 + name..65 + name] == b.fingerprint && bytes[65 + name..] == b.token;
  }

  lemma PrefixOfDecode(bytes: Text)
    requires Decode(bytes).Ok?
    ensures WellTyped(Decode(bytes).value) && Prefix(Decode(bytes).value) == bytes[..33]
  {
    Spans();
    BigEndianOfFromBigEndian(bytes[4..6]);
    BigEndianOfFromBigEndian(bytes[6..8]);
    BigEndianOfFromBigEndian(bytes[8..16]);
    BigEndianOfFromBigEndian(bytes[16..24]);
    BigEndianOfFromBigEndian(bytes[24..32]);
    PrefixRejoins(bytes);
  }

  lemma EncodeOfDecode(bytes: Text)
    requires Decode(bytes).Ok?
    ensures WellTyped(Decode(bytes).value) && Encode(Decode(bytes).value) == Ok(bytes)
  {
    var b := Decode(bytes).value;
    PrefixOfDecode(bytes);
    assert bytes == bytes[..33] + b.session + b.fingerprint + b.token;
  }

  lemma PrefixRejoins(bytes: Text)
    requires |bytes| >= PREFIX_BYTES
    ensures bytes[..33] == bytes[..4] + bytes[4..6] + bytes[6..8] + bytes[8..16] + bytes[16..24] + bytes[24..32] + [bytes[32]]
  {
  }

  /** A binding read off the front of a stream, with what is left. */
  datatype Reading = Reading(binding: Binding, rest: Text)

  /** Read the fixed prefix, then the name it announces and the two authority fields. */
  function ReadBinding(stream: Text): Option<Reading> {
    if |stream| < PREFIX_BYTES || stream[..4] != HDQS_MAGIC then None
    else
      var name := stream[32] as nat;
      if name == 0 || name > MAX_SESSION_BYTES || |stream| < PREFIX_BYTES + name + TAIL_BYTES then None
      else
        var total := PREFIX_BYTES + name + TAIL_BYTES;
        match Decode(stream[..total])
        case Err(_) => None
        case Ok(binding) => Some(Reading(binding, stream[total..]))
  }

  /** A binding read followed by any suffix returns the binding and leaves the suffix. */
  lemma BindingDelimitsItself(b: Binding, rest: Text)
    requires WellTyped(b) && Encode(b).Ok?
    ensures ReadBinding(Encode(b).value + rest) == Some(Reading(b, rest))
  {
    var bytes := Encode(b).value;
    var tail := b.session + b.fingerprint + b.token;
    assert bytes + rest == Prefix(b) + (tail + rest);
    PrefixParts(b, tail + rest);
    DecodeOfEncode(b);
    assert (bytes + rest)[..|bytes|] == bytes && (bytes + rest)[|bytes|..] == rest;
  }

  /** Whatever the reader accepts is the encoding of the binding it returns, and nothing else is consumed. */
  lemma BindingReadingIsExact(stream: Text)
    requires ReadBinding(stream).Some?
    ensures var reading := ReadBinding(stream).value;
      && WellTyped(reading.binding) && Encode(reading.binding).Ok?
      && stream == Encode(reading.binding).value + reading.rest
  {
    var total := PREFIX_BYTES + stream[32] as nat + TAIL_BYTES;
    EncodeOfDecode(stream[..total]);
    assert stream == stream[..total] + stream[total..];
  }

  // ---------------------------------------------------------------- responses

  datatype Response = Response(kind: nat, status: nat, handle: nat, reason: nat, epoch: nat)

  const ACCEPTED: nat := 2
  const REJECTED: nat := 3
  const MAX_REASON: nat := 9

  predicate ResponseTyped(r: Response) {
    (r.kind == ACCEPTED || r.kind == REJECTED) && (r.status == ACCEPTED || r.status == REJECTED)
    && r.handle < Span(2) && r.reason <= MAX_REASON && r.epoch < Span(8)
  }

  /** Accepted responses name a session and no reason; rejected ones name no session. */
  predicate Consistent(r: Response) {
    r.kind == r.status && (if r.kind == ACCEPTED then r.handle != 0 && r.reason == 0 else r.handle == 0)
  }

  function ResponseBytes(r: Response): (bytes: Text)
    requires ResponseTyped(r)
    ensures |bytes| == RESPONSE_BYTES
  {
    Spans();
    HDQS_MAGIC + BigEndian(2, VERSION) + [r.kind, r.status] + BigEndian(2, r.handle) + [r.reason, 0] + BigEndian(8, r.epoch)
  }

  function EncodeResponse(r: Response): Result<Text, WireError>
    requires ResponseTyped(r)
  {
    if !Consistent(r) then Err(InvalidStatus) else Ok(ResponseBytes(r))
  }

  function DecodeResponse(bytes: Text): Result<Response, WireError> {
    if |bytes| != RESPONSE_BYTES then Err(LengthMismatch)
    else if bytes[..4] != HDQS_MAGIC then Err(InvalidMagic)
    else if FromBigEndian(bytes[4..6]) != VERSION then Err(UnsupportedVersion)
    else if bytes[11] != 0 || !(2 <= bytes[6] <= 3) || !(2 <= bytes[7] <= 3) || bytes[10] > MAX_REASON then Err(InvalidStatus)
    else
      var r := Response(bytes[6], bytes[7], FromBigEndian(bytes[8..10]), bytes[10], FromBigEndian(bytes[12..20]));
      if Consistent(r) then Ok(r) else Err(InvalidStatus)
  }

  lemma ResponseLayout(r: Response)
    requires ResponseTyped(r)
    ensures var bytes := ResponseBytes(r);
      && bytes[..4] == HDQS_MAGIC && bytes[4..6] == BigEndian(2, VERSION) && bytes[6] == r.kind && bytes[7] == r.status
      && bytes[8..10] == BigEndian(2, r.handle) && bytes[10] == r.reason && bytes[11] == 0 && bytes[12..20] == BigEndian(8, r.epoch)
  {
  }

  lemma ResponseParts(r: Response)
    requires ResponseTyped(r)
    ensures var bytes := ResponseBytes(r);
      && bytes[..4] == HDQS_MAGIC && FromBigEndian(bytes[4..6]) == VERSION && bytes[11] == 0
      && Response(bytes[6], bytes[7], FromBigEndian(bytes[8..10]), bytes[10], FromBigEndian(bytes[12..20])) == r
  {
    Spans();
    ResponseLayout(r);
    FromBigEndianOfBigEndian(2, VERSION);
    FromBigEndianOfBigEndian(2, r.handle);
    FromBigEndianOfBigEndian(8, r.epoch);
  }

  /** Twenty bytes with the layout of a response are that response. */
  lemma LaidOutIsResponse(bytes: Text, r: Response)
    requires ResponseTyped(r) && |bytes| == RESPONSE_BYTES
    requires bytes[..4] == HDQS_MAGIC && bytes[4..6] == BigEndian(2, VERSION) && bytes[6] == r.kind && bytes[7] == r.status
    requires bytes[8..10] == BigEndian(2, r.handle) && bytes[10] == r.reason && bytes[11] == 0 && bytes[12..20] == BigEndian(8, r.epoch)
    ensures bytes == ResponseBytes(r)
  {
    assert bytes == bytes[..4] + bytes[4..6] + [bytes[6], bytes[7]] + bytes[8..10] + [bytes[10], bytes[11]] + bytes[12..20];
  }

  lemma DecodeOfEncodeResponse(r: Response)
    requires ResponseTyped(r) && EncodeResponse(r).Ok?
    ensures DecodeResponse(EncodeResponse(r).value) == Ok(r)
  {
    ResponseParts(r);
  }

  lemma EncodeOfDecodeResponse(bytes: Text)
    requires DecodeResponse(bytes).Ok?
    ensures ResponseTyped(DecodeResponse(bytes).value) && EncodeResponse(DecodeResponse(bytes).value) == Ok(bytes)
  {
    Spans();
    BigEndianOfFromBigEndian(bytes[4..6]);
    BigEndianOfFromBigEndian(bytes[8..10]);
    BigEndianOfFromBigEndian(bytes[12..20]);
    assert bytes == bytes[..4] + bytes[4..6] + [bytes[6], bytes[7]] + bytes[8..10] + [bytes[10], bytes[11]] + bytes[12..20];
  }

  /** Either the session is accepted, with a handle and no reason to refuse it, or it is rejected, without a handle. */
  predicate Decided(r: Response) {
    || (r.kind == 2 && r.status == 2 && r.handle > 0 && r.reason == 0)
    || (r.kind == 3 && r.status == 3 && r.handle == 0)
  }

  /** Exactly the decisions are encoded, and exactly their buffers are decoded. */
  lemma OnlyDecisionsTravel(r: Response)
    requires ResponseTyped(r)
    ensures EncodeResponse(r) == if Decided(r) then Ok(ResponseBytes(r)) else Err(InvalidStatus)
    ensures DecodeResponse(ResponseBytes(r)) == if Decided(r) then Ok(r) else Err(InvalidStatus)
  {
    ResponseParts(r);
  }

  /** The fixed response buffer, filled in place. */
  method FillResponse(r: Response) returns (result: Result<array<Byte>, WireError>)
    requires ResponseTyped(r)
    ensures result.Ok? <==> EncodeResponse(r).Ok?
    ensures result.Err? ==> result.error == EncodeResponse(r).error
    ensures result.Ok? ==> fresh(result.value) && result.value[..] == EncodeResponse(r).value
  {
    if !Consistent(r) {
      return Err(InvalidStatus);
    }
    Spans();
    var bytes := new Byte[RESPONSE_BYTES](_ => 0);
    CopyInto(bytes, 0, HDQS_MAGIC);
    CopyInto(bytes, 4, BigEndian(2, VERSION));
    bytes[6] := r.kind;
    bytes[7] := r.status;
    assert bytes[..4] == HDQS_MAGIC && bytes[4..6] == BigEndian(2, VERSION);
    CopyInto(bytes, 8, BigEndian(2, r.handle));
    bytes[10] := r.reason;
    assert bytes[..4] == HDQS_MAGIC && bytes[4..6] == BigEndian(2, VERSION) && bytes[8..10] == BigEndian(2, r.handle);
    CopyInto(bytes, 12, BigEndian(8, r.epoch));
    assert bytes[..4] == HDQS_MAGIC && bytes[4..6] == BigEndian(2, VERSION) && bytes[8..10] == BigEndian(2, r.handle);
    LaidOutIsResponse(bytes[..], r);
    return Ok(bytes);
  }

  method CopyInto(bytes: array<Byte>, at: nat, source: Text)
    requires at + |source| <= bytes.Length
    modifies bytes
    ensures bytes[at..at + |source|] == source
    ensures forall i | 0 <= i < bytes.Length && !(at <= i < at + |source|) :: bytes[i] == old(bytes[i])
  {
    for n := 0 to |source|
      invariant bytes[at..at + n] == source[..n]
      invariant forall i | 0 <= i < bytes.Length && !(at <= i < at + n) :: bytes[i] == old(bytes[i])
    {
      bytes[at + n] := source[n];
    }
  }
}
