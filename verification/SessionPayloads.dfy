/** The control payloads that prepare and open a session, and the hello acknowledgement (src/quic_wire.rs). */
module SessionPayloads {
  import opened Common
  import opened Bytes
  import opened Sessions
  import opened SessionWire

  datatype Kind = PrepareRequest | PrepareAck | OpenRequest | OpenAck

  /** Widths of the fields behind the session name: fingerprint, generations, epoch, token, lifetime. */
  function Widths(kind: Kind): seq<nat> {
    match kind
    case PrepareRequest => [32, 8]
    case PrepareAck => [32, 8, 8, 8, 32, 4]
    case OpenRequest => [32, 8, 8, 8, 32]
    case OpenAck => [32, 8, 8, 8, 32]
  }

  /** Integers are carried as their big-endian bytes; only an open acknowledgement has a handle. */
  datatype Payload = Payload(handle: nat, session: Session, fields: seq<Text>)

  predicate Fits(fields: seq<Text>, widths: seq<nat>) {
    |fields| == |widths| && forall i | 0 <= i < |fields| :: |fields[i]| == widths[i]
  }

  predicate WellFormed(kind: Kind, p: Payload) {
    ValidSession(p.session) && Fits(p.fields, Widths(kind)) && (if kind.OpenAck? then p.handle < Span(2) else p.handle == 0)
  }

  function Total(widths: seq<nat>): nat {
    if widths == [] then 0 else widths[0] + Total(widths[1..])
  }

  function Joined(fields: seq<Text>): Text {
    if fields == [] then [] else fields[0] + Joined(fields[1..])
  }

  function Cut(bytes: Text, widths: seq<nat>): seq<Text>
    requires |bytes| == Total(widths)
  {
    if widths == [] then [] else [bytes[..widths[0]]] + Cut(bytes[widths[0]..], widths[1..])
  }

  lemma {:induction false} CutOfJoined(fields: seq<Text>, widths: seq<nat>)
    requires Fits(fields, widths)
    ensures |Joined(fields)| == Total(widths) && Cut(Joined(fields), widths) == fields
    decreases |fields|
  {
    if fields != [] {
      CutOfJoined(fields[1..], widths[1..]);
      assert Joined(fields)[..widths[0]] == fields[0] && Joined(fields)[widths[0]..] == Joined(fields[1..]);
    }
  }

  lemma {:induction false} JoinedOfCut(bytes: Text, widths: seq<nat>)
    requires |bytes| == Total(widths)
    ensures Fits(Cut(bytes, widths), widths) && Joined(Cut(bytes, widths)) == bytes
    decreases |widths|
  {
    if widths != [] {
      JoinedOfCut(bytes[widths[0]..], widths[1..]);
      assert Cut(bytes, widths)[1..] == Cut(bytes[widths[0]..], widths[1..]);
    }
  }

  // ---------------------------------------------------------------- session payloads

  function Named(p: Payload): Text
    requires ValidSession(p.session)
  {
    [|p.session| as Byte] + p.session + Joined(p.fields)
  }

  function EncodePayload(kind: Kind, p: Payload): Result<Text, WireError>
    requires WellFormed(kind, p)
  {
    if !kind.OpenAck? then Ok(Named(p))
    else if p.handle == 0 then Err(InvalidField)
    else Ok(BigEndian(2, p.handle) + Named(p))
  }

  function DecodeNamed(kind: Kind, handle: nat, bytes: Text): Result<Payload, WireError> {
    if bytes == [] then Err(FrameTooShort)
    else
      var name := bytes[0] as nat;
      if name == 0 || name > MAX_SESSION_BYTES || |bytes| < 1 + name || !ValidSession(bytes[1..1 + name]) then Err(InvalidSession)
      else if |bytes| != 1 + name + Total(Widths(kind)) then Err(LengthMismatch)
      else Ok(Payload(handle, bytes[1..1 + name], Cut(bytes[1 + name..], Widths(kind))))
  }

  function DecodePayload(kind: Kind, bytes: Text): Result<Payload, WireError> {
    if !kind.OpenAck? then DecodeNamed(kind, 0, bytes)
    else if |bytes| < 3 then Err(FrameTooShort)
    else if FromBigEndian(bytes[..2]) == 0 then Err(InvalidField)
    else DecodeNamed(kind, FromBigEndian(bytes[..2]), bytes[2..])
  }

  lemma DecodeOfNamed(kind: Kind, p: Payload)
    requires ValidSession(p.session) && Fits(p.fields, Widths(kind))
    ensures DecodeNamed(kind, p.handle, Named(p)) == Ok(p)
  {
    CutOfJoined(p.fields, Widths(kind));
    var bytes, name := Named(p), |p.session|;
    assert bytes[1..1 + name] == p.session && bytes[1 + name..] == Joined(p.fields);
  }

  lemma NamedOfDecode(kind: Kind, handle: nat, bytes: Text)
    requires DecodeNamed(kind, handle, bytes).Ok?
    ensures var p := DecodeNamed(kind, handle, bytes).value;
      p.handle == handle && ValidSession(p.session) && Fits(p.fields, Widths(kind)) && Named(p) == bytes
  {
    var name := bytes[0] as nat;
    JoinedOfCut(bytes[1 + name..], Widths(kind));
    assert bytes == [bytes[0]] + bytes[1..1 + name] + bytes[1 + name..];
  }

  /** Every payload, but for an acknowledged session without a handle, is sent and read back. */
  lemma DecodeOfEncodePayload(kind: Kind, p: Payload)
    requires WellFormed(kind, p)
    ensures if kind.OpenAck? && p.handle == 0 then EncodePayload(kind, p) == Err(InvalidField)
            else EncodePayload(kind, p).Ok? && DecodePayload(kind, EncodePayload(kind, p).value) == Ok(p)
  {
    DecodeOfNamed(kind, p);
    if kind.OpenAck? && p.handle != 0 {
      FromBigEndianOfBigEndian(2, p.handle);
      var bytes := EncodePayload(kind, p).value;
      assert bytes[..2] == BigEndian(2, p.handle) && bytes[2..] == Named(p);
    }
  }

  /** Every accepted payload is the one that would be sent for the value read. */
  lemma EncodeOfDecodePayload(kind: Kind, bytes: Text)
    requires DecodePayload(kind, bytes).Ok?
    ensures WellFormed(kind, DecodePayload(kind, bytes).value)
    ensures EncodePayload(kind, DecodePayload(kind, bytes).value) == Ok(bytes)
  {
    if kind.OpenAck? {
      NamedOfDecode(kind, FromBigEndian(bytes[..2]), bytes[2..]);
      BigEndianOfFromBigEndian(bytes[..2]);
      assert bytes == bytes[..2] + bytes[2..];
    } else {
      NamedOfDecode(kind, 0, bytes);
    }
  }

  // ---------------------------------------------------------------- the hello acknowledgement

  const HELLO_WIDTHS: seq<nat> := [32, 8, 8, 8]

  predicate SomeZero(fields: seq<Text>) {
    exists i | 0 <= i < |fields| :: AllZero(fields[i])
  }

  function DecodeHello(bytes: Text): Result<seq<Text>, WireError> {
    if |bytes| != Total(HELLO_WIDTHS) then Err(LengthMismatch)
    else if SomeZero(Cut(bytes, HELLO_WIDTHS)) then Err(InvalidField)
    else Ok(Cut(bytes, HELLO_WIDTHS))
  }

  /** Encoding checks nothing: an acknowledgement is read back exactly when none of its fields is zero. */
  lemma HelloIsReadBackExactlyWhenNonzero(fields: seq<Text>)
    requires Fits(fields, HELLO_WIDTHS)
    ensures DecodeHello(Joined(fields)) == if SomeZero(fields) then Err(InvalidField) else Ok(fields)
  {
    CutOfJoined(fields, HELLO_WIDTHS);
  }

  lemma AcceptedHelloIsCanonical(bytes: Text)
    requires DecodeHello(bytes).Ok?
    ensures Fits(DecodeHello(bytes).value, HELLO_WIDTHS) && Joined(DecodeHello(bytes).value) == bytes
  {
    JoinedOfCut(bytes, HELLO_WIDTHS);
  }

  /** The acknowledgement, appended field by field. */
  method EncodeHello(fields: seq<Text>) returns (bytes: Text)
    requires Fits(fields, HELLO_WIDTHS)
    ensures bytes == Joined(fields) && |bytes| == 56
  {
    bytes := fields[0];
    bytes := bytes + fields[1];
    bytes := bytes + fields[2];
    bytes := bytes + fields[3];
    assert fields[1..][1..] == fields[2..] && fields[2..][1..] == fields[3..];
    assert Joined(fields[3..]) == fields[3];
    assert Joined(fields[2..]) == fields[2] + Joined(fields[3..]);
    assert Joined(fields[1..]) == fields[1] + Joined(fields[2..]);
    assert Joined(fields) == fields[0] + (fields[1] + (fields[2] + fields[3]));
  }
}
