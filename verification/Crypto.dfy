/** kis/ws/crypto.go: decryption material, CBC mode and PKCS#7 padding. */
module Crypto {
  import opened Prelude
  import opened Text
  import Base64

  datatype CryptoError = BadMaterial | BadCipher | ShortPayload

  const BLOCK: nat := 16

  type Block = b: Bytes | |b| == BLOCK witness seq(BLOCK, _ => 0)

  /** The block cipher's decryption direction under a key. */
  type BlockDecrypt = (Bytes, Block) -> Block

  const KEY_LENGTHS: seq<nat> := [16, 24, 32]
  const IV_LENGTHS: seq<nat> := [16]

  datatype AesMaterial = AesMaterial(key: Bytes, iv: Bytes)

  predicate Usable(m: AesMaterial) {
    |m.key| in KEY_LENGTHS && |m.iv| in IV_LENGTHS
  }

  /** Material that `newMaterial` has accepted. */
  type Material = m: AesMaterial | Usable(m)
    witness AesMaterial(seq(16, _ => 0), seq(16, _ => 0))

  // ---- decodeMaterial ----

  method HasLength(n: nat, want: seq<nat>) returns (found: bool)
    ensures found <==> n in want
  {
    for i := 0 to |want|
      invariant n !in want[..i]
    {
      if n == want[i] {
        return true;
      }
    }
    return false;
  }

  /** The literal bytes if their number is accepted, else the strict base64 reading, else an error. */
  function DecodeMaterial(raw: Bytes, want: seq<nat>): (r: Result<Bytes, CryptoError>)
    ensures r.Ok? ==> |r.value| in want
  {
    if |raw| in want then Ok(raw) else
      match Base64.DecodeString(raw, true)
      case Some(decoded) => if |decoded| in want then Ok(decoded) else Err(BadMaterial)
      case None => Err(BadMaterial)
  }

  function NewMaterial(rawKey: Bytes, rawIv: Bytes): Result<Material, CryptoError> {
    var key := DecodeMaterial(rawKey, KEY_LENGTHS);
    var iv := DecodeMaterial(rawIv, IV_LENGTHS);
    if key.Err? then Err(key.error)
    else if iv.Err? then Err(iv.error)
    else Ok(AesMaterial(key.value, iv.value))
  }

  function EncodedLength(n: nat): nat {
    (n + 2) / 3 * 4
  }

  /** Which accepted lengths have an encoded length that is accepted too. */
  lemma EncodedLengths(n: nat)
    ensures n in KEY_LENGTHS ==> (EncodedLength(n) in KEY_LENGTHS <==> n != 32)
    ensures n in IV_LENGTHS ==> EncodedLength(n) !in IV_LENGTHS
  {
    assert EncodedLength(16) == 24 && EncodedLength(24) == 32 && EncodedLength(32) == 44;
  }

  /**
   * Base64 material of an accepted length is recovered exactly when its encoding does not
   * itself have an accepted literal length: then, and only then, the literal reading wins.
   */
  lemma DecodeMaterialInverts(data: Bytes, want: seq<nat>)
    requires |data| in want && data != []
    ensures DecodeMaterial(Base64.Encode(data), want) == Ok(data) <==> EncodedLength(|data|) !in want
  {
    Base64.EncodeLength(data);
    Base64.DecodeEncode(data, true);
  }

  /** For the lengths in use: base64 keys survive only at 32 bytes, base64 IVs always. */
  lemma Base64MaterialLengths(key: Bytes, iv: Bytes)
    requires |key| in KEY_LENGTHS && |iv| in IV_LENGTHS
    ensures DecodeMaterial(Base64.Encode(key), KEY_LENGTHS) == Ok(key) <==> |key| == 32
    ensures DecodeMaterial(Base64.Encode(iv), IV_LENGTHS) == Ok(iv)
    ensures NewMaterial(Base64.Encode(key), Base64.Encode(iv)) == Ok(AesMaterial(key, iv)) <==> |key| == 32
    ensures NewMaterial(key, iv) == Ok(AesMaterial(key, iv))
  {
    Base64KeyLengths(key);
    Base64IvLengths(iv);
  }

  lemma Base64KeyLengths(key: Bytes)
    requires |key| in KEY_LENGTHS
    ensures DecodeMaterial(Base64.Encode(key), KEY_LENGTHS) == Ok(key) <==> |key| == 32
  {
    EncodedLengths(|key|);
    DecodeMaterialInverts(key, KEY_LENGTHS);
  }

  lemma Base64IvLengths(iv: Bytes)
    requires |iv| in IV_LENGTHS
    ensures DecodeMaterial(Base64.Encode(iv), IV_LENGTHS) == Ok(iv)
  {
    EncodedLengths(|iv|);
    DecodeMaterialInverts(iv, IV_LENGTHS);
  }

  // ---- PKCS#7 (section 6.3 of RFC 5652) ----

  function Repeat(b: byte, n: nat): (s: Bytes)
    ensures |s| == n && forall i :: 0 <= i < n ==> s[i] == b
  {
    seq(n, _ => b)
  }

  function Pad(data: Bytes, blockSize: nat): (padded: Bytes)
    requires 0 < blockSize < 256
    ensures |padded| % blockSize == 0 && |padded| > |data|
  {
    var p: byte := blockSize - |data| % blockSize;
    PadLength(|data|, blockSize);
    data + Repeat(p, p)
  }

  lemma PadLength(n: nat, blockSize: nat)
    requires blockSize > 0
    ensures (n + (blockSize - n % blockSize)) % blockSize == 0
  {
    var q := n / blockSize;
    assert (q + 1) * blockSize == q * blockSize + blockSize;
    DivisionUnique(n + (blockSize - n % blockSize), blockSize, q + 1, 0);
  }

  lemma MulAtLeast(k: int, m: nat)
    requires k >= 1
    ensures k * m >= m
  {
    assert k * m == (k - 1) * m + m;
  }

  lemma DivisionUnique(n: int, m: nat, q: int, r: nat)
    requires m > 0 && n == q * m + r && r < m
    ensures n / m == q && n % m == r
  {
    var q', r' := n / m, n % m;
    assert (q - q') * m == q * m - q' * m == r' - r;
    if q > q' {
      MulAtLeast(q - q', m);
    } else if q < q' {
      assert (q' - q) * m == r - r';
      MulAtLeast(q' - q, m);
    }
  }

  function Unpad(data: Bytes, blockSize: nat): Result<Bytes, CryptoError>
    requires blockSize > 0
  {
    if |data| == 0 || |data| % blockSize != 0 then Err(ShortPayload) else
      var padLen := data[|data| - 1];
      if padLen == 0 || padLen > blockSize || padLen > |data| then Err(BadCipher)
      else if data[|data| - padLen..] != Repeat(padLen, padLen) then Err(BadCipher)
      else Ok(data[..|data| - padLen])
  }

  method UnpadPKCS7(data: Bytes, blockSize: nat) returns (r: Result<Bytes, CryptoError>)
    requires blockSize > 0
    ensures r == Unpad(data, blockSize)
  {
    if |data| == 0 || |data| % blockSize != 0 {
      return Err(ShortPayload);
    }
    var padLen := data[|data| - 1];
    if padLen == 0 || padLen > blockSize || padLen > |data| {
      return Err(BadCipher);
    }
    var expected := new byte[padLen];
    for i := 0 to padLen
      invariant forall j :: 0 <= j < i ==> expected[j] == padLen
    {
      expected[i] := padLen;
    }
    assert expected[..] == Repeat(padLen, padLen);
    if data[|data| - padLen..] != expected[..] {
      return Err(BadCipher);
    }
    return Ok(data[..|data| - padLen]);
  }

  lemma ModUnique(n: nat, p: nat, m: nat)
    requires 0 < p <= m && (n + p) % m == 0
    ensures p == m - n % m
  {
    var q, r := n / m, n % m;
    if r + p < m {
      DivisionUnique(n + p, m, q, r + p);
    } else if r + p > m {
      assert (q + 1) * m == q * m + m;
      DivisionUnique(n + p, m, q + 1, r + p - m);
    }
  }

  /** Unpadding accepts exactly the padded strings and returns what was padded. */
  lemma UnpadAcceptsExactly(data: Bytes, x: Bytes, blockSize: nat)
    requires 0 < blockSize < 256
    ensures Unpad(data, blockSize) == Ok(x) <==> data == Pad(x, blockSize)
  {
    if Unpad(data, blockSize) == Ok(x) {
      var p := data[|data| - 1];
      assert data == x + data[|data| - p..];
      ModUnique(|x|, p, blockSize);
    }
    if data == Pad(x, blockSize) {
      var p: byte := blockSize - |x| % blockSize;
      assert data[|data| - 1] == Repeat(p, p)[p - 1];
      assert data[|x|..] == Repeat(p, p);
      assert data[..|x|] == x;
    }
  }

  // ---- CBC (section 6.2 of NIST SP 800-38A) ----

  function XorBits(a: nat, b: nat, width: nat): (x: nat)
    decreases width
  {
    if width == 0 then 0 else (a % 2 + b % 2) % 2 + 2 * XorBits(a / 2, b / 2, width - 1)
  }

  function Pow2(n: nat): (p: nat)
    ensures p > 0
  {
    if n == 0 then 1 else 2 * Pow2(n - 1)
  }

  lemma {:induction false} XorBound(a: nat, b: nat, width: nat)
    ensures XorBits(a, b, width) < Pow2(width)
    decreases width
  {
    if width > 0 {
      XorBound(a / 2, b / 2, width - 1);
    }
  }

  lemma LowBit(low: nat, high: nat, x: nat)
    requires low < 2 && x == low + 2 * high
    ensures x % 2 == low && x / 2 == high
  {}

  lemma BitCancels(a: nat, b: nat)
    ensures ((a % 2 + b % 2) % 2 + b % 2) % 2 == a % 2
  {}

  lemma {:induction false} XorCancels(a: nat, b: nat, width: nat)
    requires a < Pow2(width)
    ensures XorBits(XorBits(a, b, width), b, width) == a
    decreases width
  {
    if width > 0 {
      var low, high := (a % 2 + b % 2) % 2, XorBits(a / 2, b / 2, width - 1);
      XorCancels(a / 2, b / 2, width - 1);
      LowBit(low, high, XorBits(a, b, width));
      BitCancels(a, b);
      assert a == a % 2 + 2 * (a / 2);
    }
  }

  lemma Pow2Eight()
    ensures Pow2(8) == 256
  {}

  /** Bitwise exclusive or of two bytes. */
  function Xor(a: byte, b: byte): byte {
    XorBound(a, b, 8);
    Pow2Eight();
    XorBits(a, b, 8)
  }

  lemma XorTwice(a: byte, b: byte)
    ensures Xor(Xor(a, b), b) == a
  {
    Pow2Eight();
    XorCancels(a, b, 8);
  }

  function XorBlock(a: Block, b: Block): Block {
    seq(BLOCK, i requires 0 <= i < BLOCK => Xor(a[i], b[i]))
  }

  lemma XorBlockTwice(a: Block, b: Block)
    ensures XorBlock(XorBlock(a, b), b) == a
  {
    forall i | 0 <= i < BLOCK ensures XorBlock(XorBlock(a, b), b)[i] == a[i] {
      XorTwice(a[i], b[i]);
    }
  }

  /** The block that chains into the next one: the last ciphertext block, or the IV. */
  function Chain(iv: Block, text: Bytes): Block {
    if |text| < BLOCK then iv else text[|text| - BLOCK..]
  }

  function CbcEncrypt(encrypt: (Bytes, Block) -> Block, key: Bytes, iv: Block, plain: Bytes): (c: Bytes)
    requires |plain| % BLOCK == 0
    ensures |c| == |plain|
    decreases |plain|
  {
    if plain == [] then [] else
      var before := CbcEncrypt(encrypt, key, iv, plain[..|plain| - BLOCK]);
      before + encrypt(key, XorBlock(plain[|plain| - BLOCK..], Chain(iv, before)))
  }

  function CbcDecrypt(decrypt: BlockDecrypt, key: Bytes, iv: Block, c: Bytes): (plain: Bytes)
    requires |c| % BLOCK == 0
    ensures |plain| == |c|
    decreases |c|
  {
    if c == [] then [] else
      var before := c[..|c| - BLOCK];
      CbcDecrypt(decrypt, key, iv, before) + XorBlock(decrypt(key, c[|c| - BLOCK..]), Chain(iv, before))
  }

  lemma {:induction false} CbcRoundTrip(encrypt: (Bytes, Block) -> Block, decrypt: BlockDecrypt,
                                        key: Bytes, iv: Block, plain: Bytes)
    requires |plain| % BLOCK == 0
    requires forall b: Block :: decrypt(key, encrypt(key, b)) == b
    ensures CbcDecrypt(decrypt, key, iv, CbcEncrypt(encrypt, key, iv, plain)) == plain
    decreases |plain|
  {
    if plain != [] {
      var front, last: Block := plain[..|plain| - BLOCK], plain[|plain| - BLOCK..];
      var before := CbcEncrypt(encrypt, key, iv, front);
      var c := CbcEncrypt(encrypt, key, iv, plain);
      assert c[..|c| - BLOCK] == before;
      assert c[|c| - BLOCK..] == encrypt(key, XorBlock(last, Chain(iv, before)));
      CbcRoundTrip(encrypt, decrypt, key, iv, front);
      XorBlockTwice(last, Chain(iv, before));
      assert plain == front + last;
    }
  }

  /** The library's CBC decrypter, filling the plaintext buffer block by block. */
  method CryptBlocks(decrypt: BlockDecrypt, key: Bytes, iv: Block, c: Bytes, plain: array<byte>)
    requires |c| % BLOCK == 0 && plain.Length == |c|
    modifies plain
    ensures plain[..] == CbcDecrypt(decrypt, key, iv, c)
  {
    var i := 0;
    while i < |c|
      invariant 0 <= i <= |c| && i % BLOCK == 0
      invariant plain[..i] == CbcDecrypt(decrypt, key, iv, c[..i])
    {
      NextBlockFits(i, |c|);
      CbcDecryptNext(decrypt, key, iv, c, i);
      var block := XorBlock(decrypt(key, c[i..i + BLOCK]), Chain(iv, c[..i]));
      PutBlock(plain, i, block);
      i := i + BLOCK;
    }
    assert c[..|c|] == c && plain[..|c|] == plain[..];
  }

  lemma NextBlockFits(i: nat, n: nat)
    requires i % BLOCK == 0 && n % BLOCK == 0 && i < n
    ensures i + BLOCK <= n && (i + BLOCK) % BLOCK == 0
  {}

  method PutBlock(plain: array<byte>, at: nat, block: Block)
    requires at + BLOCK <= plain.Length
    modifies plain
    ensures plain[..at + BLOCK] == old(plain[..at]) + block
  {
    for j := 0 to BLOCK
      invariant forall k :: 0 <= k < at ==> plain[k] == old(plain[k])
      invariant forall k :: 0 <= k < j ==> plain[at + k] == block[k]
    {
      plain[at + j] := block[j];
    }
    assert forall k :: at <= k < at + BLOCK ==> plain[k] == block[k - at];
  }

  lemma CbcDecryptNext(decrypt: BlockDecrypt, key: Bytes, iv: Block, c: Bytes, i: nat)
    requires i % BLOCK == 0 && i + BLOCK <= |c|
    ensures CbcDecrypt(decrypt, key, iv, c[..i + BLOCK])
         == CbcDecrypt(decrypt, key, iv, c[..i]) + XorBlock(decrypt(key, c[i..i + BLOCK]), Chain(iv, c[..i]))
  {
    var upTo := c[..i + BLOCK];
    assert upTo[..|upTo| - BLOCK] == c[..i];
    assert upTo[|upTo| - BLOCK..] == c[i..i + BLOCK];
  }

  // ---- decrypt ----

  function Decrypted(decrypt: BlockDecrypt, m: AesMaterial, payload: Bytes): Result<Bytes, CryptoError>
    requires |m.iv| == BLOCK
  {
    match Base64.DecodeString(Trim(payload), false)
    case None => Err(BadCipher)
    case Some(c) =>
      if |m.key| !in KEY_LENGTHS then Err(BadMaterial)
      else if |c| == 0 || |c| % BLOCK != 0 then Err(ShortPayload)
      else match Unpad(CbcDecrypt(decrypt, m.key, m.iv, c), BLOCK)
           case Err(e) => Err(e)
           case Ok(plain) => Ok(Trim(plain))
  }

  method Decrypt(decrypt: BlockDecrypt, m: AesMaterial, payload: Bytes) returns (r: Result<Bytes, CryptoError>)
    requires |m.iv| == BLOCK
    ensures r == Decrypted(decrypt, m, payload)
  {
    var decoded := Base64.DecodeString(Trim(payload), false);
    if decoded.None? {
      return Err(BadCipher);
    }
    var c := decoded.value;
    if |m.key| !in KEY_LENGTHS {
      return Err(BadMaterial);
    }
    if |c| == 0 || |c| % BLOCK != 0 {
      return Err(ShortPayload);
    }
    var plain := new byte[|c|];
    CryptBlocks(decrypt, m.key, m.iv, c, plain);
    var unpadded := UnpadPKCS7(plain[..], BLOCK);
    if unpadded.Err? {
      return unpadded;
    }
    return Ok(Trim(unpadded.value));
  }

  /** The payload a server sends for a plaintext. */
  function Sealed(encrypt: (Bytes, Block) -> Block, m: Material, plain: Bytes): Bytes {
    Base64.Encode(CbcEncrypt(encrypt, m.key, m.iv, Pad(plain, BLOCK)))
  }

  /** Decryption inverts the server's sealing of any text without outer white space. */
  lemma DecryptSealed(encrypt: (Bytes, Block) -> Block, decrypt: BlockDecrypt, m: Material, plain: Bytes)
    requires forall b: Block :: decrypt(m.key, encrypt(m.key, b)) == b
    requires NoOuterSpace(plain)
    ensures Decrypted(decrypt, m, Sealed(encrypt, m, plain)) == Ok(plain)
  {
    var padded := Pad(plain, BLOCK);
    var c := CbcEncrypt(encrypt, m.key, m.iv, padded);
    DecodeTrimmed(c);
    assert CbcDecrypt(decrypt, m.key, m.iv, c) == padded by {
      CbcRoundTrip(encrypt, decrypt, m.key, m.iv, padded);
    }
    assert Unpad(padded, BLOCK) == Ok(plain) by {
      UnpadAcceptsExactly(padded, plain, BLOCK);
    }
    TrimFixed(plain);
  }

  lemma DecodeTrimmed(c: Bytes)
    ensures Base64.DecodeString(Trim(Base64.Encode(c)), false) == Some(c)
  {
    Base64.EncodeClean(c);
    TrimFixed(Base64.Encode(c));
    Base64.DecodeEncode(c, false);
  }
}
