/** The Relay's length-prefixed frames: HDP1, HDQM, HDB1 and HDE3, and reading them from a stream. */
module WireFrames {
  import opened Common
  import opened Bytes

  const MAX_FRAME_BYTES: nat := 65536

  /** One protocol's frame layout; an HDQM frame also carries a request identifier of sixteen bytes. */
  datatype RawFormat = RawFormat(magic: Text, version: nat, kinds: nat, idBytes: nat, checksMagicFirst: bool)

  type Format = f: RawFormat | |f.magic| == 4 && f.version < 65536 && f.kinds < 256 && f.idBytes <= 16
    witness RawFormat([72, 68, 80, 49], 1, 6, 0, false)

  const HDP1: Format := RawFormat([72, 68, 80, 49], 1, 6, 0, false)
  const HDQM: Format := RawFormat([72, 68, 81, 77], 1, 15, 16, true)
  const HDB1: Format := RawFormat([72, 68, 66, 49], 1, 7, 0, false)
  const HDE3: Format := RawFormat([72, 68, 69, 51], 3, 9, 0, false)

  datatype Frame = Frame(kind: nat, id: Text, payload: Text)

  datatype FrameError = FrameTooShort | InvalidMagic | UnsupportedVersion | UnknownKind | FrameTooLarge | LengthMismatch

  predicate WellTyped(f: Format, frame: Frame) {
    1 <= frame.kind <= f.kinds && |frame.id| == f.idBytes
  }

  function HeaderBytes(f: Format): nat {
    11 + f.idBytes
  }

  function Header(f: Format, frame: Frame): (r: Text)
    requires WellTyped(f, frame) && |frame.payload| <= MAX_FRAME_BYTES
    ensures |r| == HeaderBytes(f)
  {
    Spans();
    f.magic + BigEndian(2, f.version) + [frame.kind] + frame.id + BigEndian(4, |frame.payload|)
  }

  function Encode(f: Format, frame: Frame): Result<Text, FrameError>
    requires WellTyped(f, frame)
  {
    if HeaderBytes(f) + |frame.payload| > MAX_FRAME_BYTES then Err(FrameTooLarge)
    else Ok(Header(f, frame) + frame.payload)
  }

  function PayloadLength(f: Format, bytes: Text): nat
    requires |bytes| >= HeaderBytes(f)
  {
    FromBigEndian(bytes[HeaderBytes(f) - 4..HeaderBytes(f)])
  }

  function Decode(f: Format, bytes: Text): Result<Frame, FrameError> {
    if |bytes| < HeaderBytes(f) then Err(FrameTooShort)
    else if bytes[..4] != f.magic then Err(InvalidMagic)
    else if FromBigEndian(bytes[4..6]) != f.version then Err(UnsupportedVersion)
    else if !(1 <= bytes[6] <= f.kinds) then Err(UnknownKind)
    else
      var total := HeaderBytes(f) + PayloadLength(f, bytes);
      if total > MAX_FRAME_BYTES then Err(FrameTooLarge)
      else if |bytes| != total then Err(LengthMismatch)
      else Ok(Frame(bytes[6], bytes[7..7 + f.idBytes], bytes[HeaderBytes(f)..]))
  }

  lemma HeaderParts(f: Format, frame: Frame, rest: Text)
    requires WellTyped(f, frame) && |frame.payload| <= MAX_FRAME_BYTES
    ensures var bytes := Header(f, frame) + rest;
      && bytes[..4] == f.magic && FromBigEndian(bytes[4..6]) == f.version && bytes[6] == frame.kind
      && bytes[7..7 + f.idBytes] == frame.id && PayloadLength(f, bytes) == |frame.payload|
      && bytes[HeaderBytes(f)..] == rest
  {
    Spans();
    var bytes := Header(f, frame) + rest;
    FromBigEndianOfBigEndian(2, f.version);
    FromBigEndianOfBigEndian(4, |frame.payload|);
    assert bytes[4..6] == BigEndian(2, f.version);
    assert bytes[HeaderBytes(f) - 4..HeaderBytes(f)] == BigEndian(4, |frame.payload|);
  }

  /** Exactly the frames of at most 65536 bytes are encoded, and decoding inverts encoding. */
  lemma DecodeOfEncode(f: Format, frame: Frame)
    requires WellTyped(f, frame)
    ensures if 11 + f.idBytes + |frame.payload| <= 65536 then Encode(f, frame).Ok? && Decode(f, Encode(f, frame).value) == Ok(frame)
            else Encode(f, frame) == Err(FrameTooLarge)
  {
    if Encode(f, frame).Ok? {
      HeaderParts(f, frame, frame.payload);
    }
  }

  /** Accepted bytes are the only encoding of the frame they decode to. */
  lemma EncodeOfDecode(f: Format, bytes: Text)
    requires Decode(f, bytes).Ok?
    ensures WellTyped(f, Decode(f, bytes).value) && Encode(f, Decode(f, bytes).value) == Ok(bytes)
  {
    Spans();
    var frame, header := Decode(f, bytes).value, HeaderBytes(f);
    BigEndianOfFromBigEndian(bytes[4..6]);
    BigEndianOfFromBigEndian(bytes[header - 4..header]);
    assert |frame.payload| == PayloadLength(f, bytes);
    assert BigEndian(4, |frame.payload|) == bytes[header - 4..header];
    assert bytes == bytes[..4] + bytes[4..6] + [bytes[6]] + bytes[7..7 + f.idBytes] + bytes[header - 4..header] + bytes[header..];
  }

  // ---------------------------------------------------------------- streams

  /** A frame read off the front of a stream, with what is left. */
  datatype Reading = Reading(frame: Frame, rest: Text)

  /** Read one header, then exactly as much payload as it announces. */
  function ReadFrame(f: Format, stream: Text, limit: nat): Result<Reading, FrameError> {
    if |stream| < HeaderBytes(f) then Err(FrameTooShort)
    else if f.checksMagicFirst && stream[..4] != f.magic then Err(InvalidMagic)
    else
      var total := HeaderBytes(f) + PayloadLength(f, stream);
      if total > limit || total > MAX_FRAME_BYTES then Err(FrameTooLarge)
      else if |stream| < total then Err(LengthMismatch)
      else
        match Decode(f, stream[..total])
        case Err(error) => Err(if f.checksMagicFirst then LengthMismatch else error)
        case Ok(frame) => Ok(Reading(frame, stream[total..]))
  }

  /** A frame is taken off exactly, whatever follows it. */
  lemma FrameDelimitsItself(f: Format, frame: Frame, rest: Text, limit: nat)
    requires WellTyped(f, frame) && Encode(f, frame).Ok? && |Encode(f, frame).value| <= limit
    ensures ReadFrame(f, Encode(f, frame).value + rest, limit) == Ok(Reading(frame, rest))
  {
    var bytes := Encode(f, frame).value;
    assert bytes + rest == Header(f, frame) + (frame.payload + rest);
    HeaderParts(f, frame, frame.payload + rest);
    DecodeOfEncode(f, frame);
    assert (bytes + rest)[..|bytes|] == bytes && (bytes + rest)[|bytes|..] == rest;
  }

  /** Whatever a reader accepts is the encoding of the frame it returns, and nothing else is consumed. */
  lemma ReadingIsExact(f: Format, stream: Text, limit: nat)
    requires ReadFrame(f, stream, limit).Ok?
    ensures var reading := ReadFrame(f, stream, limit).value;
      && WellTyped(f, reading.frame) && Encode(f, reading.frame).Ok?
      && stream == Encode(f, reading.frame).value + reading.rest
  {
    var total := HeaderBytes(f) + PayloadLength(f, stream);
    EncodeOfDecode(f, stream[..total]);
    assert stream == stream[..total] + stream[total..];
  }

  predicate Sendable(f: Format, frames: seq<Frame>, limit: nat) {
    forall i | 0 <= i < |frames| ::
      WellTyped(f, frames[i]) && Encode(f, frames[i]).Ok? && |Encode(f, frames[i]).value| <= limit
  }

  function Concatenated(f: Format, frames: seq<Frame>): Text
    requires Sendable(f, frames, MAX_FRAME_BYTES)
  {
    if frames == [] then [] else Encode(f, frames[0]).value + Concatenated(f, frames[1..])
  }

  /** Reading `n` frames one after another. */
  function ReadFrames(f: Format, stream: Text, limit: nat, n: nat): Result<(seq<Frame>, Text), FrameError> {
    if n == 0 then Ok(([], stream))
    else
      match ReadFrame(f, stream, limit)
      case Err(error) => Err(error)
      case Ok(reading) =>
        match ReadFrames(f, reading.rest, limit, n - 1)
        case Err(error) => Err(error)
        case Ok(more) => Ok(([reading.frame] + more.0, more.1))
  }

  /** Repeated reads over any concatenation of frames return exactly those frames and leave the rest. */
  lemma {:induction false} StreamsDelimitThemselves(f: Format, frames: seq<Frame>, rest: Text, limit: nat)
    requires limit <= MAX_FRAME_BYTES && Sendable(f, frames, limit)
    ensures Sendable(f, frames, MAX_FRAME_BYTES)
    ensures ReadFrames(f, Concatenated(f, frames) + rest, limit, |frames|) == Ok((frames, rest))
    decreases |frames|
  {
    if frames == [] {
      assert [] + rest == rest;
    } else {
      assert Sendable(f, frames[1..], limit);
      StreamsDelimitThemselves(f, frames[1..], rest, limit);
      var tail := Concatenated(f, frames[1..]) + rest;
      assert Concatenated(f, frames) + rest == Encode(f, frames[0]).value + tail;
      FrameDelimitsItself(f, frames[0], tail, limit);
      assert frames == [frames[0]] + frames[1..];
    }
  }

  /** A stream starts with at most one frame: no frame is a prefix of another. */
  lemma FramesArePrefixFree(f: Format, a: Frame, b: Frame, restA: Text, restB: Text)
    requires WellTyped(f, a) && WellTyped(f, b) && Encode(f, a).Ok? && Encode(f, b).Ok?
    requires Encode(f, a).value + restA == Encode(f, b).value + restB
    ensures a == b && restA == restB
  {
    FrameDelimitsItself(f, a, restA, MAX_FRAME_BYTES);
    FrameDelimitsItself(f, b, restB, MAX_FRAME_BYTES);
  }

  /** The frame buffer, filled front to back. */
  method EncodeFrame(f: Format, frame: Frame) returns (result: Result<Text, FrameError>)
    requires WellTyped(f, frame)
    ensures result == Encode(f, frame)
  {
    if HeaderBytes(f) + |frame.payload| > MAX_FRAME_BYTES {
      return Err(FrameTooLarge);
    }
    Spans();
    var output := f.magic;
    output := output + BigEndian(2, f.version);
    output := output + [frame.kind];
    output := output + frame.id;
    output := output + BigEndian(4, |frame.payload|);
    output := output + frame.payload;
    return Ok(output);
  }
}
