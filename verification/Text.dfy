/** Byte strings and the library operations on them that the wire code relies on. */
module Text {
  import opened Prelude

  type byte = x: int | 0 <= x < 256
  type Bytes = seq<byte>

  const TAB: byte := 9
  const LF: byte := 10
  const CR: byte := 13
  const SPACE: byte := 32
  const PIPE: byte := 124    // '|'
  const CARET: byte := 94    // '^'
  const BRACE: byte := 123   // '{'
  const PLUS: byte := 43     // '+'
  const MINUS: byte := 45    // '-'
  const ZERO: byte := 48     // '0'
  const ONE: byte := 49      // '1'

  /** The ASCII white space that `strings.TrimSpace` removes. */
  predicate IsSpace(b: byte) {
    b == SPACE || TAB <= b <= CR
  }

  function TrimLeft(s: Bytes): Bytes {
    if s != [] && IsSpace(s[0]) then TrimLeft(s[1..]) else s
  }

  function TrimRight(s: Bytes): Bytes {
    if s != [] && IsSpace(s[|s| - 1]) then TrimRight(s[..|s| - 1]) else s
  }

  function Trim(s: Bytes): Bytes {
    TrimRight(TrimLeft(s))
  }

  predicate NoOuterSpace(s: Bytes) {
    s != [] ==> !IsSpace(s[0]) && !IsSpace(s[|s| - 1])
  }

  lemma TrimFixed(s: Bytes)
    requires NoOuterSpace(s)
    ensures Trim(s) == s
  {}

  /** Position of the first `sep`. */
  function IndexOf(s: Bytes, sep: byte): (i: nat)
    requires sep in s
    ensures i < |s| && s[i] == sep && sep !in s[..i]
  {
    if s[0] == sep then 0 else
      var j := IndexOf(s[1..], sep);
      assert s[..j + 1] == [s[0]] + s[1..][..j];
      j + 1
  }

  lemma IndexOfAppend(a: Bytes, sep: byte, b: Bytes)
    requires sep !in a
    ensures sep in a + [sep] + b
    ensures IndexOf(a + [sep] + b, sep) == |a|
  {
    var s := a + [sep] + b;
    assert s[|a|] == sep;
    assert s[..|a|] == a;
    var i := IndexOf(s, sep);
    assert forall j :: 0 <= j < i ==> s[j] == s[..i][j];
    assert forall j :: 0 <= j < |a| ==> s[j] == a[j];
  }

  /** `strings.Split` with a one-byte separator. */
  function Split(s: Bytes, sep: byte): (parts: seq<Bytes>)
    ensures parts != []
    ensures forall p :: p in parts ==> sep !in p
    decreases |s|
  {
    if sep !in s then [s] else
      var i := IndexOf(s, sep);
      [s[..i]] + Split(s[i + 1..], sep)
  }

  /** `strings.SplitN`: at most n parts, the last one unsplit. */
  function SplitN(s: Bytes, sep: byte, n: nat): (parts: seq<Bytes>)
    requires n >= 1
    ensures 1 <= |parts| <= n
    decreases n
  {
    if n == 1 || sep !in s then [s] else
      var i := IndexOf(s, sep);
      [s[..i]] + SplitN(s[i + 1..], sep, n - 1)
  }

  function Join(parts: seq<Bytes>, sep: byte): Bytes {
    if parts == [] then []
    else if |parts| == 1 then parts[0]
    else parts[0] + [sep] + Join(parts[1..], sep)
  }

  /** Splitting loses nothing. */
  lemma {:induction false} JoinSplit(s: Bytes, sep: byte)
    ensures Join(Split(s, sep), sep) == s
    decreases |s|
  {
    if sep in s {
      var i := IndexOf(s, sep);
      var rest := Split(s[i + 1..], sep);
      JoinSplit(s[i + 1..], sep);
      assert ([s[..i]] + rest)[1..] == rest;
      assert s == s[..i] + [sep] + s[i + 1..];
    }
  }

  /** The parts are determined by the text: separator-free parts come back from their join. */
  lemma {:induction false} SplitJoin(parts: seq<Bytes>, sep: byte)
    requires parts != []
    requires forall p :: p in parts ==> sep !in p
    ensures Split(Join(parts, sep), sep) == parts
    decreases |parts|
  {
    if |parts| > 1 {
      var rest := Join(parts[1..], sep);
      var s := parts[0] + [sep] + rest;
      assert Join(parts, sep) == s;
      IndexOfAppend(parts[0], sep, rest);
      assert s[..|parts[0]|] == parts[0];
      assert s[|parts[0]| + 1..] == rest;
      SplitJoin(parts[1..], sep);
    } else {
      assert parts == [parts[0]];
    }
  }

  // ---- decimal integers ----

  const MAX_INT: int := 0x7FFF_FFFF_FFFF_FFFF
  const MIN_INT: int := -0x8000_0000_0000_0000

  predicate IsDigit(b: byte) {
    ZERO <= b <= 57
  }

  predicate AllDigits(s: Bytes) {
    forall i :: 0 <= i < |s| ==> IsDigit(s[i])
  }

  function Decimal(s: Bytes): (n: nat)
    requires AllDigits(s)
  {
    if s == [] then 0 else Decimal(s[..|s| - 1]) * 10 + (s[|s| - 1] - ZERO)
  }

  predicate Signed(s: Bytes) {
    s != [] && (s[0] == PLUS || s[0] == MINUS)
  }

  function Unsigned(s: Bytes): Bytes {
    if Signed(s) then s[1..] else s
  }

  /** `strconv.Atoi` on a platform with 64-bit integers: an optional sign, then at least one digit. */
  function Atoi(s: Bytes): Option<int> {
    var digits := Unsigned(s);
    if digits == [] || !AllDigits(digits) then None else
      var n: int := if s[0] == MINUS then 0 - Decimal(digits) else Decimal(digits);
      if MIN_INT <= n <= MAX_INT then Some(n) else None
  }

  function Digits(n: nat): (s: Bytes)
    ensures s != [] && AllDigits(s)
    decreases n
  {
    var last: byte := ZERO + n % 10;
    if n < 10 then [last] else Digits(n / 10) + [last]
  }

  function Itoa(n: int): (s: Bytes)
    ensures s != []
  {
    if n < 0 then [MINUS] + Digits(-n) else Digits(n)
  }

  lemma {:induction false} DecimalDigits(n: nat)
    ensures Decimal(Digits(n)) == n
    decreases n
  {
    var s := Digits(n);
    if n >= 10 {
      DecimalDigits(n / 10);
      assert s[..|s| - 1] == Digits(n / 10);
    } else {
      assert s[..|s| - 1] == [];
      assert Decimal(s) == 0 * 10 + (s[0] - ZERO);
    }
  }

  /** Printing an int64 and reading it back gives the same number, whatever its sign. */
  lemma AtoiItoa(n: int)
    requires MIN_INT <= n <= MAX_INT
    ensures Atoi(Itoa(n)) == Some(n)
    ensures NoOuterSpace(Itoa(n)) && PIPE !in Itoa(n)
  {
    var s := Itoa(n);
    if n < 0 {
      DecimalDigits(-n);
      assert s[1..] == Digits(-n);
      assert forall i :: 1 <= i < |s| ==> s[i] == Digits(-n)[i - 1];
    } else {
      DecimalDigits(n);
    }
  }
}
