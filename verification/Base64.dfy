/** Unpadded base64 text in canonical form, sections 3.5, 4 and 5 of RFC 4648. */
module Base64 {
  import opened Common
  import opened Bytes

  /** The alphabets of section 4 and, safe in URLs and file names, of section 5. */
  datatype Alphabet = Standard | UrlSafe

  /** Six-bit values. */
  predicate Sextets(values: Text) {
    forall i | 0 <= i < |values| :: values[i] < 64
  }

  function Digit(alphabet: Alphabet, value: Byte): Byte
    requires value < 64
  {
    if value < 26 then 65 + value
    else if value < 52 then 97 + value - 26
    else if value < 62 then 48 + value - 52
    else if value == 62 then (if alphabet.Standard? then 43 else 45)
    else (if alphabet.Standard? then 47 else 95)
  }

  function ValueOf(alphabet: Alphabet, digit: Byte): (r: Option<Byte>)
    ensures r.Some? ==> r.value < 64
  {
    if 65 <= digit < 91 then Some(digit - 65)
    else if 97 <= digit < 123 then Some(digit - 97 + 26)
    else if 48 <= digit < 58 then Some(digit - 48 + 52)
    else if digit == (if alphabet.Standard? then 43 else 45) then Some(62)
    else if digit == (if alphabet.Standard? then 47 else 95) then Some(63)
    else None
  }

  predicate IsDigit(alphabet: Alphabet, digit: Byte) {
    ValueOf(alphabet, digit).Some?
  }

  lemma DigitHasValue(alphabet: Alphabet, value: Byte)
    requires value < 64
    ensures ValueOf(alphabet, Digit(alphabet, value)) == Some(value)
  {
  }

  function DigitValue(alphabet: Alphabet, digit: Byte): (r: Byte)
    requires IsDigit(alphabet, digit)
    ensures r < 64 && Digit(alphabet, r) == digit
  {
    ValueOf(alphabet, digit).value
  }

  function Digits(alphabet: Alphabet, values: Text): (r: Text)
    requires Sextets(values)
    ensures |r| == |values|
  {
    seq(|values|, i requires 0 <= i < |values| => Digit(alphabet, values[i]))
  }

  function Values(alphabet: Alphabet, digits: Text): (r: Text)
    requires forall i | 0 <= i < |digits| :: IsDigit(alphabet, digits[i])
    ensures |r| == |digits| && Sextets(r)
  {
    seq(|digits|, i requires 0 <= i < |digits| =>
      assert IsDigit(alphabet, digits[i]);
      DigitValue(alphabet, digits[i]))
  }

  // ---------------------------------------------------------------- groups of up to three bytes

  /** A group of three bytes fills four digits; a shorter one is filled with zero bits. */
  function Pack(group: Text): (r: Text)
    requires 1 <= |group| <= 3
    ensures |r| == |group| + 1 && Sextets(r)
  {
    if |group| == 1 then [group[0] / 4, group[0] % 4 * 16]
    else if |group| == 2 then [group[0] / 4, group[0] % 4 * 16 + group[1] / 16, group[1] % 16 * 4]
    else [group[0] / 4, group[0] % 4 * 16 + group[1] / 16, group[1] % 16 * 4 + group[2] / 64, group[2] % 64]
  }

  /** Two to four digits as one to three bytes, refused when the dropped bits are not zero. */
  function Unpack(values: Text): (r: Option<Text>)
    requires 2 <= |values| <= 4 && Sextets(values)
    ensures r.Some? ==> |r.value| == |values| - 1
  {
    var first: Byte := values[0] * 4 + values[1] / 16;
    if |values| == 2 then
      if values[1] % 16 != 0 then None else Some([first])
    else
      var second: Byte := values[1] % 16 * 16 + values[2] / 4;
      if |values| == 3 then
        if values[2] % 4 != 0 then None else Some([first, second])
      else Some([first, second, values[2] % 4 * 64 + values[3]])
  }

  lemma SplitBits(high: nat, low: nat, base: nat)
    requires low < base && (base == 4 || base == 16 || base == 64)
    ensures (high * base + low) / base == high && (high * base + low) % base == low
  {
    if base == 4 {
      assert (high * 4 + low) / 4 == high;
    } else if base == 16 {
      assert (high * 16 + low) / 16 == high;
    } else {
      assert (high * 64 + low) / 64 == high;
    }
  }

  lemma UnpackOfPack(group: Text)
    requires 1 <= |group| <= 3
    ensures Unpack(Pack(group)) == Some(group)
  {
    var values := Pack(group);
    if |group| > 1 {
      SplitBits(group[0] % 4, group[1] / 16, 16);
      assert values[1] / 16 == group[0] % 4 && values[1] % 16 == group[1] / 16;
    }
    if |group| > 2 {
      SplitBits(group[1] % 16, group[2] / 64, 4);
      assert values[2] / 4 == group[1] % 16 && values[2] % 4 == group[2] / 64;
    }
    assert Unpack(values).value == group;
  }

  lemma PackOfUnpack(values: Text)
    requires 2 <= |values| <= 4 && Sextets(values) && Unpack(values).Some?
    ensures Pack(Unpack(values).value) == values
  {
    var group := Unpack(values).value;
    SplitBits(values[0], values[1] / 16, 4);
    assert group[0] / 4 == values[0] && group[0] % 4 == values[1] / 16;
    if |values| > 2 {
      SplitBits(values[1] % 16, values[2] / 4, 16);
      assert group[1] / 16 == values[1] % 16 && group[1] % 16 == values[2] / 4;
    }
    if |values| > 3 {
      SplitBits(values[2] % 4, values[3], 64);
    }
  }

  // ---------------------------------------------------------------- whole texts

  function EncodeGroup(alphabet: Alphabet, group: Text): (r: Text)
    requires 1 <= |group| <= 3
    ensures |r| == |group| + 1
  {
    Digits(alphabet, Pack(group))
  }

  function DecodeGroup(alphabet: Alphabet, digits: Text): (r: Option<Text>)
    requires 2 <= |digits| <= 4
    ensures r.Some? ==> |r.value| == |digits| - 1
  {
    if forall i | 0 <= i < |digits| :: IsDigit(alphabet, digits[i]) then Unpack(Values(alphabet, digits)) else None
  }

  function Encode(alphabet: Alphabet, bytes: Text): (r: Text)
    ensures |r| == (4 * |bytes| + 2) / 3
    decreases |bytes|
  {
    if bytes == [] then []
    else if |bytes| <= 3 then EncodeGroup(alphabet, bytes)
    else EncodeGroup(alphabet, bytes[..3]) + Encode(alphabet, bytes[3..])
  }

  function Decode(alphabet: Alphabet, text: Text): Option<Text>
    decreases |text|
  {
    if text == [] then Some([])
    else if |text| == 1 then None
    else if |text| <= 4 then DecodeGroup(alphabet, text)
    else
      var head, tail := DecodeGroup(alphabet, text[..4]), Decode(alphabet, text[4..]);
      if head.None? || tail.None? then None else Some(head.value + tail.value)
  }

  lemma DecodeOfEncodeGroup(alphabet: Alphabet, group: Text)
    requires 1 <= |group| <= 3
    ensures DecodeGroup(alphabet, EncodeGroup(alphabet, group)) == Some(group)
  {
    var values, digits := Pack(group), EncodeGroup(alphabet, group);
    forall i | 0 <= i < |digits| ensures ValueOf(alphabet, digits[i]) == Some(values[i]) {
      DigitHasValue(alphabet, values[i]);
    }
    assert Values(alphabet, digits) == values;
    UnpackOfPack(group);
  }

  lemma EncodeOfDecodeGroup(alphabet: Alphabet, digits: Text)
    requires 2 <= |digits| <= 4 && DecodeGroup(alphabet, digits).Some?
    ensures EncodeGroup(alphabet, DecodeGroup(alphabet, digits).value) == digits
  {
    var values := Values(alphabet, digits);
    PackOfUnpack(values);
    assert Digits(alphabet, values) == digits;
  }

  /** Decoding inverts encoding. */
  lemma {:induction false} DecodeOfEncode(alphabet: Alphabet, bytes: Text)
    ensures Decode(alphabet, Encode(alphabet, bytes)) == Some(bytes)
    decreases |bytes|
  {
    if 1 <= |bytes| <= 3 {
      DecodeOfEncodeGroup(alphabet, bytes);
    } else if bytes != [] {
      DecodeOfEncodeGroup(alphabet, bytes[..3]);
      DecodeOfEncode(alphabet, bytes[3..]);
      var text := Encode(alphabet, bytes);
      assert text[..4] == EncodeGroup(alphabet, bytes[..3]) && text[4..] == Encode(alphabet, bytes[3..]);
      assert bytes == bytes[..3] + bytes[3..];
    }
  }

  /** Canonical form: every accepted text is the encoding of what it decodes to. */
  lemma {:induction false} EncodeOfDecode(alphabet: Alphabet, text: Text)
    requires Decode(alphabet, text).Some?
    ensures Encode(alphabet, Decode(alphabet, text).value) == text
    decreases |text|
  {
    if 2 <= |text| <= 4 {
      EncodeOfDecodeGroup(alphabet, text);
    } else if text != [] {
      EncodeOfDecodeGroup(alphabet, text[..4]);
      EncodeOfDecode(alphabet, text[4..]);
      var head, bytes := DecodeGroup(alphabet, text[..4]).value, Decode(alphabet, text).value;
      assert bytes[..3] == head && bytes[3..] == Decode(alphabet, text[4..]).value;
      assert |Decode(alphabet, text[4..]).value| > 0;
      assert text == text[..4] + text[4..];
    }
  }
}
