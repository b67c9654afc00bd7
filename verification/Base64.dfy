/**
 * Standard padded base64 (section 4 of RFC 4648) as Go's decoder reads it: CR and LF are
 * skipped wherever they stand, and strict mode also wants the unused trailing bits to be
 * zero (section 3.5). Encoder and decoder are parameterised by the alphabet, as in Go.
 */
module Base64 {
  import opened Prelude
  import opened Text

  type sextet = x: int | 0 <= x < 64

  type Alphabet = sextet -> byte
  type DecodeMap = byte -> Option<sextet>

  const PAD: byte := 61 // '='

  // ---- the bits: three bytes are four sextets ----

  function Sextet0(a: byte): sextet { a / 4 }
  function Sextet1(a: byte, b: byte): sextet { a % 4 * 16 + b / 16 }
  function Sextet2(b: byte, c: byte): sextet { b % 16 * 4 + c / 64 }
  function Sextet3(c: byte): sextet { c % 64 }

  function Byte0(i0: sextet, i1: sextet): byte { i0 * 4 + i1 / 16 }
  function Byte1(i1: sextet, i2: sextet): byte { i1 % 16 * 16 + i2 / 4 }
  function Byte2(i2: sextet, i3: sextet): byte { i2 % 4 * 64 + i3 }

  lemma BytesOfSextets(a: byte, b: byte, c: byte)
    ensures Byte0(Sextet0(a), Sextet1(a, b)) == a
    ensures Byte1(Sextet1(a, b), Sextet2(b, c)) == b
    ensures Byte2(Sextet2(b, c), Sextet3(c)) == c
  {}

  lemma TailBitsZero(a: byte)
    ensures Sextet1(a, 0) % 16 == 0 && Sextet2(a, 0) % 4 == 0
  {
    assert Sextet1(a, 0) == 16 * (a % 4);
    assert Sextet2(a, 0) == 4 * (a % 16);
  }

  lemma SextetsOfBytes(i0: sextet, i1: sextet, i2: sextet, i3: sextet)
    ensures
      var a, b, c := Byte0(i0, i1), Byte1(i1, i2), Byte2(i2, i3);
      Sextet0(a) == i0 && Sextet1(a, b) == i1 && Sextet2(b, c) == i2 && Sextet3(c) == i3
  {}

  // ---- text, for any alphabet ----

  function EncodeWith(symbol: Alphabet, data: Bytes): Bytes
    decreases |data|
  {
    if data == [] then []
    else if |data| == 1 then
      [symbol(Sextet0(data[0])), symbol(Sextet1(data[0], 0)), PAD, PAD]
    else if |data| == 2 then
      [symbol(Sextet0(data[0])), symbol(Sextet1(data[0], data[1])), symbol(Sextet2(data[1], 0)), PAD]
    else
      EncodeQuad(symbol, data[0], data[1], data[2]) + EncodeWith(symbol, data[3..])
  }

  function EncodeQuad(symbol: Alphabet, a: byte, b: byte, c: byte): (quad: Bytes)
    ensures |quad| == 4
  {
    [symbol(Sextet0(a)), symbol(Sextet1(a, b)), symbol(Sextet2(b, c)), symbol(Sextet3(c))]
  }

  /** Decodes newline-free text, four symbols at a time; padding may only end it. */
  function DecodeWith(index: DecodeMap, t: Bytes, strict: bool): Option<Bytes>
    decreases |t|
  {
    if t == [] then Some([])
    else if |t| < 4 then None
    else if t[2] == PAD || t[3] == PAD then
      if |t| == 4 then DecodeLast(index, t[0], t[1], t[2], t[3], strict) else None
    else
      match DecodeQuad(index, t[0], t[1], t[2], t[3])
      case None => None
      case Some(quad) =>
        match DecodeWith(index, t[4..], strict)
        case None => None
        case Some(rest) => Some(quad + rest)
  }

  function DecodeQuad(index: DecodeMap, s0: byte, s1: byte, s2: byte, s3: byte): (quad: Option<Bytes>)
    ensures quad.Some? ==> |quad.value| == 3
  {
    var i0, i1, i2, i3 := index(s0), index(s1), index(s2), index(s3);
    if i0.None? || i1.None? || i2.None? || i3.None? then None
    else Some([Byte0(i0.value, i1.value), Byte1(i1.value, i2.value), Byte2(i2.value, i3.value)])
  }

  /** The final quantum, with one or two padding characters. */
  function DecodeLast(index: DecodeMap, s0: byte, s1: byte, s2: byte, s3: byte, strict: bool): Option<Bytes> {
    var i0, i1 := index(s0), index(s1);
    if i0.None? || i1.None? || s3 != PAD then None
    else if s2 == PAD then
      if strict && i1.value % 16 != 0 then None else Some([Byte0(i0.value, i1.value)])
    else
      var i2 := index(s2);
      if i2.None? || (strict && i2.value % 4 != 0) then None
      else Some([Byte0(i0.value, i1.value), Byte1(i1.value, i2.value)])
  }

  /** The decode map reads back exactly what the alphabet writes, and '=' is not in it. */
  ghost predicate Inverse(symbol: Alphabet, index: DecodeMap) {
    && (forall i: sextet :: index(symbol(i)) == Some(i))
    && (forall b: byte :: index(b).Some? ==> symbol(index(b).value) == b)
    && index(PAD).None?
    && (forall i: sextet :: symbol(i) != PAD)
  }

  lemma DecodeEncodeQuad(symbol: Alphabet, index: DecodeMap, a: byte, b: byte, c: byte)
    requires Inverse(symbol, index)
    ensures
      var q := EncodeQuad(symbol, a, b, c);
      q[2] != PAD && q[3] != PAD && DecodeQuad(index, q[0], q[1], q[2], q[3]) == Some([a, b, c])
  {
    BytesOfSextets(a, b, c);
  }

  lemma DecodeLastOne(symbol: Alphabet, index: DecodeMap, i0: sextet, i1: sextet, strict: bool)
    requires Inverse(symbol, index)
    requires i1 % 16 == 0
    ensures DecodeLast(index, symbol(i0), symbol(i1), PAD, PAD, strict) == Some([Byte0(i0, i1)])
  {}

  lemma DecodeEncodeOne(symbol: Alphabet, index: DecodeMap, a: byte, i0: sextet, i1: sextet, strict: bool)
    requires Inverse(symbol, index)
    requires i0 == Sextet0(a) && i1 == Sextet1(a, 0)
    ensures DecodeLast(index, symbol(i0), symbol(i1), PAD, PAD, strict) == Some([a])
  {
    assert Byte0(i0, i1) == a && i1 % 16 == 0 by {
      BytesOfSextets(a, 0, 0);
      TailBitsZero(a);
    }
    DecodeLastOne(symbol, index, i0, i1, strict);
  }

  lemma DecodeEncodeTwo(symbol: Alphabet, index: DecodeMap, a: byte, b: byte, strict: bool)
    requires Inverse(symbol, index)
    ensures symbol(Sextet2(b, 0)) != PAD
    ensures
      DecodeLast(index, symbol(Sextet0(a)), symbol(Sextet1(a, b)), symbol(Sextet2(b, 0)), PAD, strict) == Some([a, b])
  {
    BytesOfSextets(a, b, 0);
    TailBitsZero(b);
  }

  lemma {:induction false} DecodeEncodeWith(symbol: Alphabet, index: DecodeMap, data: Bytes, strict: bool)
    requires Inverse(symbol, index)
    ensures DecodeWith(index, EncodeWith(symbol, data), strict) == Some(data)
    decreases |data|
  {
    if |data| == 1 {
      DecodeEncodeOne(symbol, index, data[0], Sextet0(data[0]), Sextet1(data[0], 0), strict);
      assert data == [data[0]];
    } else if |data| == 2 {
      DecodeEncodeTwo(symbol, index, data[0], data[1], strict);
      assert data == [data[0], data[1]];
    } else if |data| >= 3 {
      DecodeEncodeQuad(symbol, index, data[0], data[1], data[2]);
      DecodeEncodeWith(symbol, index, data[3..], strict);
      var text := EncodeWith(symbol, data);
      assert text[4..] == EncodeWith(symbol, data[3..]);
      assert data == [data[0], data[1], data[2]] + data[3..];
    }
  }

  lemma EncodeDecodeQuad(symbol: Alphabet, index: DecodeMap, s0: byte, s1: byte, s2: byte, s3: byte)
    requires Inverse(symbol, index)
    requires DecodeQuad(index, s0, s1, s2, s3).Some?
    ensures var d := DecodeQuad(index, s0, s1, s2, s3).value; EncodeQuad(symbol, d[0], d[1], d[2]) == [s0, s1, s2, s3]
  {
    SextetsOfBytes(index(s0).value, index(s1).value, index(s2).value, index(s3).value);
  }

  lemma EncodeDecodeLast(symbol: Alphabet, index: DecodeMap, s0: byte, s1: byte, s2: byte, s3: byte)
    requires Inverse(symbol, index)
    requires DecodeLast(index, s0, s1, s2, s3, true).Some?
    ensures EncodeWith(symbol, DecodeLast(index, s0, s1, s2, s3, true).value) == [s0, s1, s2, s3]
  {
    SextetsOfBytes(index(s0).value, index(s1).value, if s2 == PAD then 0 else index(s2).value, 0);
  }

  /** In strict mode the encoder's output is the only accepted spelling. */
  lemma {:induction false} EncodeDecodeWith(symbol: Alphabet, index: DecodeMap, t: Bytes)
    requires Inverse(symbol, index)
    requires DecodeWith(index, t, true).Some?
    ensures EncodeWith(symbol, DecodeWith(index, t, true).value) == t
    decreases |t|
  {
    if t == [] {
    } else if t[2] == PAD || t[3] == PAD {
      EncodeDecodeLast(symbol, index, t[0], t[1], t[2], t[3]);
      assert t == [t[0], t[1], t[2], t[3]];
    } else {
      EncodeDecodeQuad(symbol, index, t[0], t[1], t[2], t[3]);
      EncodeDecodeWith(symbol, index, t[4..]);
      var quad, rest := DecodeQuad(index, t[0], t[1], t[2], t[3]).value, DecodeWith(index, t[4..], true).value;
      assert (quad + rest)[3..] == rest;
      assert t == [t[0], t[1], t[2], t[3]] + t[4..];
    }
  }

  lemma {:induction false} EncodeLengthWith(symbol: Alphabet, data: Bytes)
    ensures |EncodeWith(symbol, data)| == (|data| + 2) / 3 * 4
    decreases |data|
  {
    if |data| >= 3 {
      EncodeLengthWith(symbol, data[3..]);
    }
  }

  lemma {:induction false} EncodeSymbolsWith(symbol: Alphabet, data: Bytes, b: byte)
    requires b != PAD && forall i: sextet :: symbol(i) != b
    ensures b !in EncodeWith(symbol, data)
    decreases |data|
  {
    if |data| >= 3 {
      EncodeSymbolsWith(symbol, data[3..], b);
    }
  }

  // ---- the standard alphabet ----

  function Symbol(i: sextet): byte {
    if i < 26 then 65 + i
    else if i < 52 then 71 + i
    else if i < 62 then i - 4
    else if i == 62 then 43
    else 47
  }

  function Index(b: byte): Option<sextet> {
    if 65 <= b <= 90 then Some(b - 65)
    else if 97 <= b <= 122 then Some(b - 71)
    else if 48 <= b <= 57 then Some(b + 4)
    else if b == 43 then Some(62)
    else if b == 47 then Some(63)
    else None
  }

  const SYMBOLS: Alphabet := i => Symbol(i)
  const INDEXES: DecodeMap := b => Index(b)

  function Encode(data: Bytes): Bytes {
    EncodeWith(SYMBOLS, data)
  }

  function StripNewlines(s: Bytes): Bytes {
    if s == [] then []
    else if s[0] == CR || s[0] == LF then StripNewlines(s[1..])
    else [s[0]] + StripNewlines(s[1..])
  }

  /** `base64.StdEncoding.DecodeString`, or its `Strict()` variant. */
  function DecodeString(s: Bytes, strict: bool): Option<Bytes> {
    DecodeWith(INDEXES, StripNewlines(s), strict)
  }

  lemma StandardInverse()
    ensures Inverse(SYMBOLS, INDEXES)
  {
    forall i: sextet ensures INDEXES(SYMBOLS(i)) == Some(i) && SYMBOLS(i) != PAD {
      IndexOfSymbol(i);
    }
    forall b: byte | INDEXES(b).Some? ensures SYMBOLS(INDEXES(b).value) == b {
      SymbolOfIndex(b);
    }
  }

  lemma IndexOfSymbol(i: sextet)
    ensures Index(Symbol(i)) == Some(i) && Symbol(i) != PAD
  {}

  lemma SymbolOfIndex(b: byte)
    requires Index(b).Some?
    ensures Symbol(Index(b).value) == b
  {}

  lemma EncodeLength(data: Bytes)
    ensures |Encode(data)| == (|data| + 2) / 3 * 4
  {
    EncodeLengthWith(SYMBOLS, data);
  }

  lemma {:induction false} StripClean(s: Bytes)
    requires CR !in s && LF !in s
    ensures StripNewlines(s) == s
  {
    if s != [] {
      StripClean(s[1..]);
    }
  }

  /** Encoded text holds no white space, so neither trimming nor newline skipping touches it. */
  lemma EncodeClean(data: Bytes)
    ensures forall b :: b in Encode(data) ==> !IsSpace(b)
    ensures StripNewlines(Encode(data)) == Encode(data) && NoOuterSpace(Encode(data))
  {
    forall b: byte | IsSpace(b) ensures b !in Encode(data) {
      EncodeSymbolsWith(SYMBOLS, data, b);
    }
    var text := Encode(data);
    assert text != [] ==> text[0] in text && text[|text| - 1] in text;
    StripClean(text);
  }

  /**
   * Strict decoding accepts exactly the canonical encodings, newlines aside, and inverts
   * the encoder.
   */
  lemma StrictAcceptsExactly(s: Bytes, data: Bytes)
    ensures DecodeString(s, true) == Some(data) <==> StripNewlines(s) == Encode(data)
  {
    StandardInverse();
    DecodeEncodeWith(SYMBOLS, INDEXES, data, true);
    if DecodeString(s, true) == Some(data) {
      EncodeDecodeWith(SYMBOLS, INDEXES, StripNewlines(s));
    }
  }

  lemma DecodeEncode(data: Bytes, strict: bool)
    ensures DecodeString(Encode(data), strict) == Some(data)
  {
    EncodeClean(data);
    StandardInverse();
    DecodeEncodeWith(SYMBOLS, INDEXES, data, strict);
  }

  /** Whatever strict decoding accepts, lenient decoding reads the same way. */
  lemma StrictImpliesLenient(s: Bytes)
    requires DecodeString(s, true).Some?
    ensures DecodeString(s, false) == DecodeString(s, true)
  {
    var data := DecodeString(s, true).value;
    StrictAcceptsExactly(s, data);
    StandardInverse();
    DecodeEncodeWith(SYMBOLS, INDEXES, data, false);
  }
}
