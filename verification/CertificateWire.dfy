/** Hexadecimal and certificate-chain fields, and the size of the frames that carry a chain. */
module CertificateWire {
  import opened Common
  import opened Bytes
  import opened Base64
  import Frames = WireFrames

  const MAX_CHAIN_BYTES: nat := 46 * 1024
  const MAX_CHAIN_CERTIFICATES: nat := 8

  datatype FieldError = InvalidField | FrameTooLarge

  // ---------------------------------------------------------------- lowercase hexadecimal

  function HexDigit(nibble: Byte): Byte
    requires nibble < 16
  {
    if nibble < 10 then 48 + nibble else 97 + nibble - 10
  }

  function HexNibble(digit: Byte): (r: Option<Byte>)
    ensures r.Some? ==> r.value < 16
  {
    if 48 <= digit < 58 then Some(digit - 48) else if 97 <= digit < 103 then Some(digit - 97 + 10) else None
  }

  function EncodeHex(bytes: Text): (r: Text)
    ensures |r| == 2 * |bytes|
  {
    if bytes == [] then []
    else
      EncodeHex(bytes[..|bytes| - 1]) + [HexDigit(bytes[|bytes| - 1] / 16), HexDigit(bytes[|bytes| - 1] % 16)]
  }

  predicate LowercaseHex(text: Text) {
    forall i | 0 <= i < |text| :: HexNibble(text[i]).Some?
  }

  function HexByte(high: Byte, low: Byte): Byte
    requires HexNibble(high).Some? && HexNibble(low).Some?
  {
    HexNibble(high).value * 16 + HexNibble(low).value
  }

  function HexBytes(text: Text): (r: Text)
    requires |text| % 2 == 0 && LowercaseHex(text)
    ensures |r| == |text| / 2
  {
    if text == [] then [] else HexBytes(text[..|text| - 2]) + [HexByte(text[|text| - 2], text[|text| - 1])]
  }

  /** A fixed-width digest field; the zero digest is refused. */
  function DecodeHex(text: Text, width: nat): Result<Text, FieldError> {
    if |text| != 2 * width || !LowercaseHex(text) then Err(InvalidField)
    else if AllZero(HexBytes(text)) then Err(InvalidField)
    else Ok(HexBytes(text))
  }

  lemma HexBytesAppend(front: Text, high: Byte, low: Byte)
    requires |front| % 2 == 0 && LowercaseHex(front) && HexNibble(high).Some? && HexNibble(low).Some?
    ensures LowercaseHex(front + [high, low])
    ensures HexBytes(front + [high, low]) == HexBytes(front) + [HexByte(high, low)]
  {
    var text := front + [high, low];
    assert text[..|text| - 2] == front;
  }

  lemma {:induction false} HexRoundTrip(bytes: Text)
    ensures LowercaseHex(EncodeHex(bytes)) && HexBytes(EncodeHex(bytes)) == bytes
  {
    if bytes != [] {
      var front, last := bytes[..|bytes| - 1], bytes[|bytes| - 1];
      HexRoundTrip(front);
      DigitsOfByte(last);
      HexBytesAppend(EncodeHex(front), HexDigit(last / 16), HexDigit(last % 16));
    }
  }

  lemma DigitsOfByte(b: Byte)
    ensures HexNibble(HexDigit(b / 16)) == Some(b / 16) && HexNibble(HexDigit(b % 16)) == Some(b % 16)
    ensures HexByte(HexDigit(b / 16), HexDigit(b % 16)) == b
  {
  }

  lemma EncodeHexAppend(front: Text, last: Byte)
    ensures EncodeHex(front + [last]) == EncodeHex(front) + [HexDigit(last / 16), HexDigit(last % 16)]
  {
    assert (front + [last])[..|front|] == front;
  }

  lemma {:induction false} HexIsCanonical(text: Text)
    requires |text| % 2 == 0 && LowercaseHex(text)
    ensures EncodeHex(HexBytes(text)) == text
  {
    if text != [] {
      var front, high, low := text[..|text| - 2], text[|text| - 2], text[|text| - 1];
      HexIsCanonical(front);
      HexPair(high, low);
      EncodeHexAppend(HexBytes(front), HexByte(high, low));
      Rejoins(text);
    }
  }

  lemma Rejoins(text: Text)
    requires |text| >= 2
    ensures text == text[..|text| - 2] + [text[|text| - 2], text[|text| - 1]]
  {
  }

  lemma HexPair(high: Byte, low: Byte)
    requires HexNibble(high).Some? && HexNibble(low).Some?
    ensures HexDigit(HexByte(high, low) / 16) == high && HexDigit(HexByte(high, low) % 16) == low
  {
    var a, b := HexNibble(high).value, HexNibble(low).value;
    assert (a * 16 + b) / 16 == a && (a * 16 + b) % 16 == b;
  }

  /** Every nonzero digest survives its text form, and every accepted text is that form. */
  lemma HexFieldRoundTrip(bytes: Text, text: Text, width: nat)
    ensures |bytes| == width && !AllZero(bytes) ==> DecodeHex(EncodeHex(bytes), width) == Ok(bytes)
    ensures DecodeHex(text, width).Ok? ==> EncodeHex(DecodeHex(text, width).value) == text
  {
    HexRoundTrip(bytes);
    if DecodeHex(text, width).Ok? {
      HexIsCanonical(text);
    }
  }

  /** The output string, two digits a byte. */
  method WriteHex(bytes: Text) returns (output: Text)
    ensures output == EncodeHex(bytes)
  {
    output := [];
    for n := 0 to |bytes|
      invariant output == EncodeHex(bytes[..n])
    {
      assert bytes[..n + 1][..n] == bytes[..n];
      output := output + [HexDigit(bytes[n] / 16)];
      output := output + [HexDigit(bytes[n] % 16)];
      assert output == EncodeHex(bytes[..n]) + [HexDigit(bytes[n] / 16), HexDigit(bytes[n] % 16)];
    }
    assert bytes[..|bytes|] == bytes;
  }

  // ---------------------------------------------------------------- certificate chains

  predicate Sized<T>(items: seq<T>) {
    0 < |items| <= MAX_CHAIN_CERTIFICATES
  }

  /** The first `n` certificates are nonempty and within the byte bound together. */
  predicate PrefixFits(chain: seq<Text>, n: nat)
    requires n <= |chain|
  {
    (forall i | 0 <= i < n :: chain[i] != []) && TotalBytes(chain[..n]) <= MAX_CHAIN_BYTES
  }

  /** The chains that may be sent. */
  predicate ValidChain(chain: seq<Text>) {
    Sized(chain) && PrefixFits(chain, |chain|)
  }

  /** The first fault of the chain is certificate `n`, which takes the total over the bound. */
  predicate OverflowsAt(chain: seq<Text>, n: nat)
    requires n < |chain|
  {
    PrefixFits(chain, n) && chain[n] != [] && !PrefixFits(chain, n + 1)
  }

  ghost predicate Overflows(chain: seq<Text>) {
    Sized(chain) && exists n | 0 <= n < |chain| :: OverflowsAt(chain, n)
  }

  lemma TotalAppend(chain: seq<Text>, n: nat)
    requires n < |chain|
    ensures TotalBytes(chain[..n + 1]) == TotalBytes(chain[..n]) + |chain[n]|
  {
    assert chain[..n + 1][..n] == chain[..n];
  }

  lemma {:induction false} PrefixTotal(chain: seq<Text>, m: nat, n: nat)
    requires m <= n <= |chain|
    ensures TotalBytes(chain[..m]) <= TotalBytes(chain[..n])
    decreases n
  {
    if m < n {
      PrefixTotal(chain, m, n - 1);
      TotalAppend(chain, n - 1);
    }
  }

  lemma FittingPrefixes(chain: seq<Text>, m: nat, n: nat)
    requires m <= n <= |chain| && PrefixFits(chain, n)
    ensures PrefixFits(chain, m)
  {
    PrefixTotal(chain, m, n);
  }

  /** Certificate `n` is the first fault: what that makes of the chain. */
  lemma FirstFault(chain: seq<Text>, n: nat)
    requires n < |chain| && PrefixFits(chain, n) && !PrefixFits(chain, n + 1)
    ensures !ValidChain(chain)
    ensures Sized(chain) ==> (Overflows(chain) <==> chain[n] != [])
  {
    if PrefixFits(chain, |chain|) {
      FittingPrefixes(chain, n + 1, |chain|);
    }
    if chain[n] != [] {
      assert OverflowsAt(chain, n);
    }
    forall k | 0 <= k < |chain| && OverflowsAt(chain, k) ensures k == n {
      if k < n {
        FittingPrefixes(chain, k + 1, n);
      } else if n < k {
        FittingPrefixes(chain, n + 1, k);
      }
    }
  }

  lemma NoFault(chain: seq<Text>)
    requires PrefixFits(chain, |chain|)
    ensures !Overflows(chain)
  {
    forall k | 0 <= k < |chain| ensures !OverflowsAt(chain, k) {
      FittingPrefixes(chain, k + 1, |chain|);
    }
  }

  function ChainTexts(chain: seq<Text>): (r: seq<Text>)
    ensures |r| == |chain|
  {
    seq(|chain|, i requires 0 <= i < |chain| => Encode(UrlSafe, chain[i]))
  }

  /** The bytes of one text; the empty certificate stands for every text that is not canonical base64url. */
  function TextBytes(text: Text): Text {
    var bytes := Decode(UrlSafe, text);
    if bytes.Some? then bytes.value else []
  }

  function Decoded(texts: seq<Text>): (r: seq<Text>)
    ensures |r| == |texts|
  {
    seq(|texts|, i requires 0 <= i < |texts| => TextBytes(texts[i]))
  }

  /** The encoding loop: certificates are checked and totalled one by one. */
  method EncodeChain(chain: seq<Text>) returns (result: Result<seq<Text>, FieldError>)
    ensures result.Ok? <==> ValidChain(chain)
    ensures result.Ok? ==> result.value == ChainTexts(chain)
    ensures result == Err(FrameTooLarge) <==> Overflows(chain)
  {
    if chain == [] || |chain| > MAX_CHAIN_CERTIFICATES {
      return Err(InvalidField);
    }
    var total := 0;
    var output: seq<Text> := [];
    for n := 0 to |chain|
      invariant PrefixFits(chain, n) && total == TotalBytes(chain[..n])
      invariant output == ChainTexts(chain)[..n]
    {
      TotalAppend(chain, n);
      if chain[n] == [] || |chain[n]| > MAX_CHAIN_BYTES {
        FirstFault(chain, n);
        return Err(if |chain[n]| > MAX_CHAIN_BYTES then FrameTooLarge else InvalidField);
      }
      total := total + |chain[n]|;
      if total > MAX_CHAIN_BYTES {
        FirstFault(chain, n);
        return Err(FrameTooLarge);
      }
      output := output + [Encode(UrlSafe, chain[n])];
    }
    NoFault(chain);
    return Ok(output);
  }

  /** The decoding loop applies the encoder's bounds to what the texts denote. */
  method DecodeChain(texts: seq<Text>) returns (result: Result<seq<Text>, FieldError>)
    ensures result.Ok? <==> ValidChain(Decoded(texts))
    ensures result.Ok? ==> result.value == Decoded(texts)
    ensures result == Err(FrameTooLarge) <==> Overflows(Decoded(texts))
  {
    if texts == [] || |texts| > MAX_CHAIN_CERTIFICATES {
      return Err(InvalidField);
    }
    ghost var chain := Decoded(texts);
    var total := 0;
    var output: seq<Text> := [];
    for n := 0 to |texts|
      invariant PrefixFits(chain, n) && total == TotalBytes(chain[..n])
      invariant output == chain[..n]
    {
      var certificate := Decode(UrlSafe, texts[n]);
      TotalAppend(chain, n);
      if certificate.None? || certificate.value == [] || |certificate.value| > MAX_CHAIN_BYTES {
        FirstFault(chain, n);
        return Err(if certificate.Some? && |certificate.value| > MAX_CHAIN_BYTES then FrameTooLarge else InvalidField);
      }
      total := total + |certificate.value|;
      if total > MAX_CHAIN_BYTES {
        FirstFault(chain, n);
        return Err(FrameTooLarge);
      }
      output := output + [certificate.value];
    }
    NoFault(chain);
    return Ok(output);
  }

  /** Decoding inverts encoding on every valid chain, and accepts nothing but such encodings. */
  lemma ChainRoundTrip(texts: seq<Text>, chain: seq<Text>)
    ensures ValidChain(chain) ==> Decoded(ChainTexts(chain)) == chain
    ensures ValidChain(Decoded(texts)) ==> ChainTexts(Decoded(texts)) == texts
  {
    if ValidChain(chain) {
      forall i | 0 <= i < |chain| ensures Decoded(ChainTexts(chain))[i] == chain[i] {
        DecodeOfEncode(UrlSafe, chain[i]);
      }
    }
    if ValidChain(Decoded(texts)) {
      forall i | 0 <= i < |texts| ensures ChainTexts(Decoded(texts))[i] == texts[i] {
        assert Decoded(texts)[i] != [];
        EncodeOfDecode(UrlSafe, texts[i]);
      }
    }
  }

  // ---------------------------------------------------------------- frame sizes

  /** Decimal digits of an integer. */
  function Digits(n: nat): (r: nat)
    ensures r >= 1
  {
    if n < 10 then 1 else 1 + Digits(n / 10)
  }

  function Quoted(length: nat): nat {
    length + 2
  }

  /** The JSON array of the chain's texts: brackets, quotes and separating commas. */
  function ArrayLength(texts: seq<Text>): nat {
    if texts == [] then 2
    else if |texts| == 1 then 2 + Quoted(|texts[0]|)
    else ArrayLength(texts[..|texts| - 1]) + 1 + Quoted(|texts[|texts| - 1]|)
  }

  datatype Field = Field(name: string, length: nat)

  /** A JSON object: braces, and for each field its quoted name, a colon, its value and a separating comma. */
  function ObjectLength(fields: seq<Field>): nat {
    if fields == [] then 2
    else
      ObjectLength(fields[..|fields| - 1]) + (if |fields| == 1 then 0 else 1)
      + Quoted(|fields[|fields| - 1].name|) + 1 + fields[|fields| - 1].length
  }

  const NULL: nat := 4

  /** The HDB1 payload of a fresh issuance, field by field. */
  function CoreIssuedFields(chain: seq<Text>, notAfter: nat): seq<Field> {
    [Field("approval_id", Quoted(43)), Field("core_identity", Quoted(64)), Field("certificate_chain", ArrayLength(ChainTexts(chain))),
     Field("not_after_epoch_seconds", Digits(notAfter)), Field("state", Quoted(|"bootstrap_pending"|))]
  }

  /** The HDB1 payload of an issued recovery result. */
  function ResultFields(chain: seq<Text>, notAfter: nat): seq<Field> {
    [Field("approval_id", Quoted(43)), Field("status", Quoted(|"issued"|)), Field("core_identity", Quoted(64)),
     Field("certificate_chain", ArrayLength(ChainTexts(chain))), Field("not_after_epoch_seconds", Digits(notAfter)),
     Field("rejection_code", NULL)]
  }

  /** The HDE3 payload of an issued or active enrollment result. */
  function EnrollmentFields(chain: seq<Text>, notAfter: nat, generation: nat): seq<Field> {
    [Field("approval_id", Quoted(43)), Field("status", Quoted(|"issued"|)), Field("app_identity", Quoted(64)),
     Field("certificate_chain", ArrayLength(ChainTexts(chain))), Field("certificate_fingerprint", Quoted(64)),
     Field("certificate_chain_digest", Quoted(64)), Field("not_after_epoch_seconds", Digits(notAfter)),
     Field("configuration_generation", Digits(generation)), Field("rejection_code", NULL)]
  }

  lemma DigitsBound(n: nat)
    requires n <= U64_MAX
    ensures Digits(n) <= 20
  {
    assert Power10(5) == 100000;
    assert Power10(10) == 10000000000 by {
      assert Power10(8) == 100000000;
    }
    assert Power10(15) == 1000000000000000 by {
      assert Power10(13) == 10000000000000;
    }
    assert Power10(20) == 100000000000000000000 by {
      assert Power10(18) == 1000000000000000000;
    }
    DigitsBelow(n, 20, Power10(20));
  }

  lemma {:induction false} DigitsBelow(n: nat, k: nat, bound: nat)
    requires k > 0 && n < bound && bound == Power10(k)
    ensures Digits(n) <= k
    decreases k
  {
    if n >= 10 {
      assert k > 1;
      DigitsBelow(n / 10, k - 1, Power10(k - 1));
    }
  }

  function Power10(k: nat): nat {
    if k == 0 then 1 else 10 * Power10(k - 1)
  }

  /** Unpadded base64 costs four thirds of the bytes, rounded up for each certificate. */
  lemma {:induction false} ArrayBound(chain: seq<Text>)
    ensures 3 * ArrayLength(ChainTexts(chain)) <= 4 * TotalBytes(chain) + 11 * |chain| + 6
  {
    if chain != [] {
      var front, last := chain[..|chain| - 1], chain[|chain| - 1];
      ArrayBound(front);
      var texts := ChainTexts(chain);
      assert texts[..|texts| - 1] == ChainTexts(front);
      assert texts[|texts| - 1] == Encode(UrlSafe, last);
      if |chain| == 1 {
        assert front == [];
      }
    }
  }

  /** However an accepted chain splits its 46 KiB, every frame that carries it fits in 65,536 bytes. */
  lemma ChainFramesFit(chain: seq<Text>, notAfter: nat, generation: nat)
    requires ValidChain(chain) && notAfter <= U64_MAX && generation <= U64_MAX
    ensures Frames.HeaderBytes(Frames.HDB1) + ObjectLength(CoreIssuedFields(chain, notAfter)) <= Frames.MAX_FRAME_BYTES
    ensures Frames.HeaderBytes(Frames.HDB1) + ObjectLength(ResultFields(chain, notAfter)) <= Frames.MAX_FRAME_BYTES
    ensures Frames.HeaderBytes(Frames.HDE3) + ObjectLength(EnrollmentFields(chain, notAfter, generation)) <= Frames.MAX_FRAME_BYTES
  {
    DigitsBound(notAfter);
    DigitsBound(generation);
    ArrayBound(chain);
    assert chain[..|chain|] == chain;
    CoreIssuedLength(chain, notAfter);
    ResultLength(chain, notAfter);
    EnrollmentLength(chain, notAfter, generation);
  }

  lemma CoreIssuedLength(chain: seq<Text>, notAfter: nat)
    ensures ObjectLength(CoreIssuedFields(chain, notAfter)) == 220 + ArrayLength(ChainTexts(chain)) + Digits(notAfter)
  {
    FieldsLength(CoreIssuedFields(chain, notAfter));
    SumUpToNine(CoreIssuedFields(chain, notAfter));
  }

  lemma ResultLength(chain: seq<Text>, notAfter: nat)
    ensures ObjectLength(ResultFields(chain, notAfter)) == 232 + ArrayLength(ChainTexts(chain)) + Digits(notAfter)
  {
    FieldsLength(ResultFields(chain, notAfter));
    SumUpToNine(ResultFields(chain, notAfter));
  }

  lemma EnrollmentLength(chain: seq<Text>, notAfter: nat, generation: nat)
    ensures ObjectLength(EnrollmentFields(chain, notAfter, generation))
         == 446 + ArrayLength(ChainTexts(chain)) + Digits(notAfter) + Digits(generation)
  {
    FieldsLength(EnrollmentFields(chain, notAfter, generation));
    SumUpToNine(EnrollmentFields(chain, notAfter, generation));
  }

  function Part(fields: seq<Field>, k: nat): nat {
    if k < |fields| then |fields[k].name| + fields[k].length else 0
  }

  lemma SumFrom(fields: seq<Field>, k: nat)
    ensures Sum(if k <= |fields| then fields[k..] else []) == Part(fields, k) + Sum(if k + 1 <= |fields| then fields[k + 1..] else [])
  {
    if k < |fields| {
      assert fields[k..][1..] == fields[k + 1..];
    } else if k == |fields| {
      assert fields[k..] == [];
    }
  }

  lemma SumUpToFour(fields: seq<Field>, k: nat)
    ensures Sum(if k <= |fields| then fields[k..] else [])
         == Part(fields, k) + Part(fields, k + 1) + Part(fields, k + 2) + Part(fields, k + 3)
            + Sum(if k + 4 <= |fields| then fields[k + 4..] else [])
  {
    SumFrom(fields, k);
    SumFrom(fields, k + 1);
    SumFrom(fields, k + 2);
    SumFrom(fields, k + 3);
    assert |fields| <= k + 4 ==> (if k + 4 <= |fields| then fields[k + 4..] else []) == [];
  }

  lemma SumUpToNine(fields: seq<Field>)
    requires |fields| <= 9
    ensures Sum(fields)
         == Part(fields, 0) + Part(fields, 1) + Part(fields, 2) + Part(fields, 3) + Part(fields, 4) + Part(fields, 5)
            + Part(fields, 6) + Part(fields, 7) + Part(fields, 8)
  {
    assert fields[0..] == fields;
    assert |fields| == 9 ==> fields[9..] == [];
    SumUpToFour(fields, 0);
    SumUpToFour(fields, 4);
    SumFrom(fields, 8);
  }

  function Sum(fields: seq<Field>): nat {
    if fields == [] then 0 else Sum(fields[1..]) + |fields[0].name| + fields[0].length
  }

  lemma {:induction false} SumAppend(fields: seq<Field>, last: Field)
    ensures Sum(fields + [last]) == Sum(fields) + |last.name| + last.length
    decreases |fields|
  {
    if fields != [] {
      assert (fields + [last])[1..] == fields[1..] + [last];
      SumAppend(fields[1..], last);
    }
  }

  lemma {:induction false} FieldsLength(fields: seq<Field>)
    ensures ObjectLength(fields) == Sum(fields) + (if fields == [] then 2 else 1 + 4 * |fields|)
    decreases |fields|
  {
    if fields != [] {
      var front, last := fields[..|fields| - 1], fields[|fields| - 1];
      FieldsLength(front);
      SumAppend(front, last);
      assert fields == front + [last];
    }
  }
}
