/** Bytes, fixed-width big-endian integers and length-prefixed strings. */
module Bytes {
  type Byte = x: int | 0 <= x < 256

  type Text = seq<Byte>

  /** 256^width. */
  function Span(width: nat): (r: nat)
    ensures r > 0
  {
    if width == 0 then 1 else 256 * Span(width - 1)
  }

  function BigEndian(width: nat, value: nat): (r: Text)
    requires value < Span(width)
    ensures |r| == width
  {
    if width == 0 then [] else BigEndian(width - 1, value / 256) + [value % 256]
  }

  function FromBigEndian(bytes: Text): (value: nat)
    ensures value < Span(|bytes|)
  {
    if bytes == [] then 0
    else FromBigEndian(bytes[..|bytes| - 1]) * 256 + bytes[|bytes| - 1]
  }

  lemma {:induction false} FromBigEndianOfBigEndian(width: nat, value: nat)
    requires value < Span(width)
    ensures FromBigEndian(BigEndian(width, value)) == value
  {
    if width > 0 {
      FromBigEndianOfBigEndian(width - 1, value / 256);
      assert BigEndian(width, value)[..width - 1] == BigEndian(width - 1, value / 256);
    }
  }

  lemma {:induction false} BigEndianOfFromBigEndian(bytes: Text)
    ensures BigEndian(|bytes|, FromBigEndian(bytes)) == bytes
  {
    if bytes != [] {
      BigEndianOfFromBigEndian(bytes[..|bytes| - 1]);
      assert bytes == bytes[..|bytes| - 1] + [bytes[|bytes| - 1]];
    }
  }

  lemma Spans()
    ensures Span(2) == 0x1_0000
    ensures Span(4) == 0x1_0000_0000
    ensures Span(8) == 0x1_0000_0000_0000_0000
  {
    assert Span(1) == 256;
    assert Span(2) == 0x1_0000;
    assert Span(3) == 0x100_0000;
    assert Span(4) == 0x1_0000_0000;
    assert Span(5) == 0x100_0000_0000;
    assert Span(6) == 0x1_0000_0000_0000;
    assert Span(7) == 0x100_0000_0000_0000;
  }

  /** A string prefixed with its length as a big-endian integer of eight bytes. */
  function Prefixed(value: Text): Text
    requires |value| < Span(8)
  {
    BigEndian(8, |value|) + value
  }

  /** A length-prefixed string delimits itself: what follows can be recovered. */
  lemma PrefixedSplits(a: Text, b: Text, restA: Text, restB: Text)
    requires |a| < Span(8) && |b| < Span(8)
    requires Prefixed(a) + restA == Prefixed(b) + restB
    ensures a == b && restA == restB
  {
    var whole := Prefixed(a) + restA;
    assert whole[..8] == BigEndian(8, |a|) && whole[..8] == BigEndian(8, |b|);
    FromBigEndianOfBigEndian(8, |a|);
    FromBigEndianOfBigEndian(8, |b|);
    assert whole[8..8 + |a|] == a && whole[8..8 + |b|] == b;
    assert whole[8 + |a|..] == restA && whole[8 + |b|..] == restB;
  }

  /** A fixed-width integer delimits itself too. */
  lemma BigEndianSplits(width: nat, a: nat, b: nat, restA: Text, restB: Text)
    requires a < Span(width) && b < Span(width)
    requires BigEndian(width, a) + restA == BigEndian(width, b) + restB
    ensures a == b && restA == restB
  {
    var whole := BigEndian(width, a) + restA;
    assert whole[..width] == BigEndian(width, a) && whole[..width] == BigEndian(width, b);
    FromBigEndianOfBigEndian(width, a);
    FromBigEndianOfBigEndian(width, b);
    assert whole[width..] == restA && whole[width..] == restB;
  }

  predicate AllZero(bytes: Text) {
    forall i | 0 <= i < |bytes| :: bytes[i] == 0
  }

  function TotalBytes(texts: seq<Text>): nat {
    if texts == [] then 0 else TotalBytes(texts[..|texts| - 1]) + |texts[|texts| - 1]|
  }
}
