/** kis/ws/frame.go: pipe-delimited realtime frames and their fields. */
module Frame {
  import opened Prelude
  import opened Text

  datatype RealtimeFrame = RealtimeFrame(encrypted: bool, tr: Bytes, count: int, payload: Bytes)

  /** Trims the four bytes that the system-message test skips. */
  function SkipBlank(s: Bytes): Bytes {
    if s != [] && s[0] in {SPACE, TAB, CR, LF} then SkipBlank(s[1..]) else s
  }

  function ParseRealtime(text: Bytes): Option<RealtimeFrame> {
    var skipped := SkipBlank(text);
    if skipped != [] && skipped[0] == BRACE then None else
      var parts := SplitN(text, PIPE, 4);
      if |parts| < 4 then None
      else if parts[0] != [ZERO] && parts[0] != [ONE] then None
      else
        var count := Atoi(Trim(parts[2]));
        if count.None? || parts[1] == [] then None
        else Some(RealtimeFrame(parts[0] == [ONE], parts[1], count.value, parts[3]))
  }

  function Flag(encrypted: bool): Bytes {
    if encrypted then [ONE] else [ZERO]
  }

  /** The text of a frame whose count segment is written as `count`. */
  function Compose(f: RealtimeFrame, count: Bytes): Bytes {
    Flag(f.encrypted) + [PIPE] + (f.tr + [PIPE] + (count + [PIPE] + f.payload))
  }

  /** The canonical text: the count in plain decimal. */
  function Print(f: RealtimeFrame): Bytes {
    Compose(f, Itoa(f.count))
  }

  /** What a well-formed frame text is, without reference to any parser. */
  predicate Shape(text: Bytes, f: RealtimeFrame, count: Bytes) {
    && text == Compose(f, count)
    && f.tr != [] && PIPE !in f.tr
    && PIPE !in count
    && Atoi(Trim(count)) == Some(f.count)
  }

  lemma SplitNCons(a: Bytes, b: Bytes, n: nat)
    requires PIPE !in a && n >= 2
    ensures
      var p := SplitN(a + [PIPE] + b, PIPE, n);
      |p| >= 2 && p[0] == a && p[1..] == SplitN(b, PIPE, n - 1)
  {
    IndexOfAppend(a, PIPE, b);
    var s := a + [PIPE] + b;
    assert s[..|a|] == a;
    assert s[|a| + 1..] == b;
    assert ([a] + SplitN(b, PIPE, n - 1))[1..] == SplitN(b, PIPE, n - 1);
  }

  lemma SplitCompose(f: RealtimeFrame, count: Bytes)
    requires PIPE !in f.tr && PIPE !in count
    ensures
      var p := SplitN(Compose(f, count), PIPE, 4);
      |p| == 4 && p[0] == Flag(f.encrypted) && p[1] == f.tr && p[2] == count && p[3] == f.payload
  {
    var r2 := count + [PIPE] + f.payload;
    var r1 := f.tr + [PIPE] + r2;
    SplitNCons(Flag(f.encrypted), r1, 4);
    SplitNCons(f.tr, r2, 3);
    SplitNCons(count, f.payload, 2);
  }

  /** Cutting once at the first separator. */
  lemma SplitNFirst(s: Bytes, n: nat) returns (rest: Bytes)
    requires n >= 2 && |SplitN(s, PIPE, n)| >= 2
    ensures
      var parts := SplitN(s, PIPE, n);
      s == parts[0] + [PIPE] + rest && PIPE !in parts[0] && parts[1..] == SplitN(rest, PIPE, n - 1)
  {
    var i := IndexOf(s, PIPE);
    var parts := SplitN(s, PIPE, n);
    rest := s[i + 1..];
    assert s == s[..i] + [PIPE] + rest;
    assert parts == [s[..i]] + SplitN(rest, PIPE, n - 1);
    assert parts[1..] == SplitN(rest, PIPE, n - 1);
  }

  lemma SplitFour(s: Bytes)
    requires |SplitN(s, PIPE, 4)| == 4
    ensures
      var p := SplitN(s, PIPE, 4);
      && s == p[0] + [PIPE] + (p[1] + [PIPE] + (p[2] + [PIPE] + p[3]))
      && PIPE !in p[0] && PIPE !in p[1] && PIPE !in p[2]
  {
    var p := SplitN(s, PIPE, 4);
    var r1 := SplitNFirst(s, 4);
    var r2 := SplitNFirst(r1, 3);
    var r3 := SplitNFirst(r2, 2);
    assert p[3] == p[1..][1..][1..][0] == r3;
  }

  /** The leading-brace test never decides anything: such a text has no "0" or "1" first segment anyway. */
  lemma BraceTestRedundant(text: Bytes)
    requires SkipBlank(text) != [] && SkipBlank(text)[0] == BRACE
    ensures var parts := SplitN(text, PIPE, 4); parts[0] != [ZERO] && parts[0] != [ONE]
  {
    var parts := SplitN(text, PIPE, 4);
    if PIPE in text {
      var i := IndexOf(text, PIPE);
      assert parts[0] == text[..i];
      assert parts[0] != [] ==> parts[0][0] == text[0];
    }
  }

  /** The parser accepts exactly the well-formed texts, and returns the frame they spell. */
  lemma ParseAcceptsExactly(text: Bytes, f: RealtimeFrame)
    ensures ParseRealtime(text) == Some(f) <==> exists count :: Shape(text, f, count)
  {
    var p := SplitN(text, PIPE, 4);
    if ParseRealtime(text) == Some(f) {
      SplitFour(text);
      assert Shape(text, f, p[2]);
    }
    if count :| Shape(text, f, count) {
      SplitCompose(f, count);
      if SkipBlank(text) != [] && SkipBlank(text)[0] == BRACE {
        BraceTestRedundant(text);
        assert false;
      }
    }
  }

  /** Print then parse is the identity, with pipes in the payload kept. */
  lemma ParsePrint(f: RealtimeFrame)
    requires f.tr != [] && PIPE !in f.tr
    requires MIN_INT <= f.count <= MAX_INT
    ensures ParseRealtime(Print(f)) == Some(f)
  {
    AtoiItoa(f.count);
    TrimFixed(Itoa(f.count));
    assert Shape(Print(f), f, Itoa(f.count));
    ParseAcceptsExactly(Print(f), f);
  }

  // ---- fields ----

  function NonEmpty(parts: seq<Bytes>): seq<Bytes> {
    if parts == [] then []
    else if parts[|parts| - 1] == [] then NonEmpty(parts[..|parts| - 1])
    else NonEmpty(parts[..|parts| - 1]) + [parts[|parts| - 1]]
  }

  /** The fields of a payload: all caret segments, or else the non-empty pipe segments. */
  function Fields(payload: Bytes): seq<Bytes> {
    if CARET in payload then Split(payload, CARET) else NonEmpty(Split(payload, PIPE))
  }

  method SplitFields(payload: Bytes) returns (fields: seq<Bytes>)
    ensures fields == Fields(payload)
  {
    if CARET in payload {
      return Split(payload, CARET);
    }
    fields := [];
    var segments := Split(payload, PIPE);
    for i := 0 to |segments|
      invariant fields == NonEmpty(segments[..i])
    {
      assert segments[..i + 1][..i] == segments[..i];
      if segments[i] != [] {
        fields := fields + [segments[i]];
      }
    }
    assert segments[..|segments|] == segments;
  }

  /** `fields[index]`, or the empty string outside the record. */
  function Field(fields: seq<Bytes>, index: int): Bytes {
    if 0 <= index < |fields| then fields[index] else []
  }

  /** A caret payload is recovered by joining its fields, and caret-free fields are recovered from their join. */
  lemma CaretFields(payload: Bytes, fields: seq<Bytes>)
    requires CARET in payload
    ensures Fields(payload) == fields <==>
      fields != [] && (forall f :: f in fields ==> CARET !in f) && Join(fields, CARET) == payload
  {
    JoinSplit(payload, CARET);
    if fields != [] && (forall f :: f in fields ==> CARET !in f) && Join(fields, CARET) == payload {
      SplitJoin(fields, CARET);
    }
  }

  lemma {:induction false} NonEmptyKeeps(parts: seq<Bytes>, p: Bytes)
    ensures p in NonEmpty(parts) <==> p in parts && p != []
    decreases |parts|
  {
    if parts != [] {
      var init := parts[..|parts| - 1];
      NonEmptyKeeps(init, p);
      assert parts == init + [parts[|parts| - 1]];
    }
  }

  lemma {:induction false} NonEmptyConcat(a: seq<Bytes>, b: seq<Bytes>)
    ensures NonEmpty(a + b) == NonEmpty(a) + NonEmpty(b)
    decreases |b|
  {
    if b == [] {
      assert a + b == a;
    } else {
      var init := b[..|b| - 1];
      NonEmptyConcat(a, init);
      assert (a + b)[..|a + b| - 1] == a + init;
    }
  }

  /**
   * A payload without carets yields its non-empty pipe segments in order: dropping an empty
   * segment anywhere, and nothing else, changes the text but not the fields.
   */
  lemma PipeFields(before: seq<Bytes>, after: seq<Bytes>)
    requires before + after != []
    requires forall p :: p in before + after ==> PIPE !in p && CARET !in p
    ensures Fields(Join(before + after, PIPE)) == NonEmpty(before + after)
    ensures Fields(Join(before + [[]] + after, PIPE)) == NonEmpty(before + after)
    ensures forall p :: p in Fields(Join(before + after, PIPE)) ==> p != [] && p in before + after
  {
    var all, padded := before + after, before + [[]] + after;
    assert forall p :: p in padded ==> p in all || p == [];
    JoinFree(all);
    JoinFree(padded);
    SplitJoin(all, PIPE);
    SplitJoin(padded, PIPE);
    NonEmptyConcat(before, after);
    NonEmptyConcat(before + [[]], after);
    NonEmptyConcat(before, [[]]);
    forall p | p in NonEmpty(all) ensures p != [] && p in all {
      NonEmptyKeeps(all, p);
    }
  }

  lemma {:induction false} JoinFree(parts: seq<Bytes>)
    requires forall p :: p in parts ==> CARET !in p
    ensures CARET !in Join(parts, PIPE)
    decreases |parts|
  {
    if |parts| > 1 {
      JoinFree(parts[1..]);
    }
  }
}
