/** From the text of a frame to an event: `handle`, `publish` and `storeMaterial` of kis/ws/reader.go. */
module Pipeline {
  import opened Prelude
  import opened Text
  import opened Frame
  import opened Execution
  import opened Protocol
  import opened Crypto

  datatype Event = Event(tr: Bytes, key: Bytes, fields: seq<Bytes>, execution: Option<Notice>,
                         executionErr: Option<nat>, raw: Bytes)

  datatype DropReason = Unrecognised | NoMaterial | Undecryptable(error: CryptoError) | UnusableMaterial

  datatype Outcome = Publish(event: Event) | Discard(tr: Bytes, reason: DropReason)

  datatype Raw =
    | Data(frame: RealtimeFrame, text: Bytes)
    | Ping(text: Bytes)
    | Ack(ack: AckMessage)
    | Garbage

  /** What the reader takes a text for; `json` is the library's decoder. */
  function Classify(json: Bytes -> Option<AckMessage>, text: Bytes): Raw {
    match ParseRealtime(text)
    case Some(frame) => Data(frame, text)
    case None =>
      match json(text)
      case None => Garbage
      case Some(ack) => if ack.tr == TR_PINGPONG then Ping(text) else Ack(ack)
  }

  function EventOf(tr: Bytes, payload: Bytes, raw: Bytes): Event {
    var fields := Fields(payload);
    var parsed := ParseExecution(fields);
    if IsExecution(tr) then
      if parsed.Ok? then Event(tr, Field(fields, 0), fields, Some(parsed.value), None, raw)
      else Event(tr, Field(fields, 0), fields, None, Some(parsed.error), raw)
    else Event(tr, Field(fields, 0), fields, None, None, raw)
  }

  /** What becomes of a data frame, given the material held for its transaction. */
  function Interpret(decrypt: BlockDecrypt, frame: RealtimeFrame, raw: Bytes, material: Option<Material>): Outcome {
    if !frame.encrypted then Publish(EventOf(frame.tr, frame.payload, raw))
    else if material.None? then Discard(frame.tr, NoMaterial)
    else match Decrypted(decrypt, material.value, frame.payload)
         case Err(e) => Discard(frame.tr, Undecryptable(e))
         case Ok(plain) => Publish(EventOf(frame.tr, plain, raw))
  }

  datatype Stored = Ignore | Unusable | Store(material: Material)

  /** What an accepted ACK's key and iv fields amount to for the transaction it is attributed to. */
  function StoreOutcome(tr: Bytes, rawKey: Bytes, rawIv: Bytes): Stored {
    if tr == [] || Trim(rawKey) == [] || Trim(rawIv) == [] then Ignore
    else match NewMaterial(rawKey, rawIv)
         case Err(_) => Unusable
         case Ok(m) => Store(m)
  }

  /** The text a server sends for an encrypted record of the given fields. */
  function SealedFrame(encrypt: (Bytes, Block) -> Block, m: Material, tr: Bytes, count: int, fields: seq<Bytes>): Bytes
  {
    Print(RealtimeFrame(true, tr, count, Sealed(encrypt, m, Join(fields, CARET))))
  }

  lemma {:induction false} JoinHasCaret(fields: seq<Bytes>)
    requires |fields| >= 2
    ensures CARET in Join(fields, CARET)
  {
    assert Join(fields, CARET)[|fields[0]|] == CARET;
  }

  lemma FieldsOfJoin(fields: seq<Bytes>)
    requires |fields| >= 2 && forall f :: f in fields ==> CARET !in f
    ensures Fields(Join(fields, CARET)) == fields
  {
    JoinHasCaret(fields);
    SplitJoin(fields, CARET);
  }

  /**
   * End to end: an encrypted execution record reaches the consumer with exactly the fields the
   * server joined, and with the notice read from their documented positions.
   */
  lemma EndToEnd(encrypt: (Bytes, Block) -> Block, decrypt: BlockDecrypt, json: Bytes -> Option<AckMessage>,
                 m: Material, tr: Bytes, count: int, fields: seq<Bytes>)
    requires forall b: Block :: decrypt(m.key, encrypt(m.key, b)) == b
    requires IsExecution(tr) && MIN_INT <= count <= MAX_INT
    requires |fields| == FIELD_COUNT && forall f :: f in fields ==> CARET !in f
    requires NoOuterSpace(Join(fields, CARET))
    ensures
      var text := SealedFrame(encrypt, m, tr, count, fields);
      && Classify(json, text) == Data(RealtimeFrame(true, tr, count, Sealed(encrypt, m, Join(fields, CARET))), text)
      && Interpret(decrypt, Classify(json, text).frame, text, Some(m)) == Publish(Event(
           tr, fields[0], fields,
           Some(Notice(fields[2], fields[8], ParseSide(fields[4]), fields[9], fields[10], fields[11], fields[13])),
           None, text))
  {
    var joined := Join(fields, CARET);
    var text := SealedFrame(encrypt, m, tr, count, fields);
    var frame := RealtimeFrame(true, tr, count, Sealed(encrypt, m, joined));
    ExecutionTrPlain(tr);
    assert Classify(json, text) == Data(frame, text) by { ParsePrint(frame); }
    assert Interpret(decrypt, frame, text, Some(m)) == Publish(EventOf(tr, joined, text)) by {
      DecryptSealed(encrypt, decrypt, m, joined);
    }
    EventOfRecord(tr, fields, text);
  }

  lemma ExecutionTrPlain(tr: Bytes)
    requires IsExecution(tr)
    ensures tr != [] && PIPE !in tr
  {}

  lemma EventOfRecord(tr: Bytes, fields: seq<Bytes>, raw: Bytes)
    requires IsExecution(tr)
    requires |fields| == FIELD_COUNT && forall f :: f in fields ==> CARET !in f
    ensures EventOf(tr, Join(fields, CARET), raw) == Event(
              tr, fields[0], fields,
              Some(Notice(fields[2], fields[8], ParseSide(fields[4]), fields[9], fields[10], fields[11], fields[13])),
              None, raw)
  {
    FieldsOfJoin(fields);
  }

  /** The same record sent in clear carries the same fields and notice. */
  lemma PlainRecord(decrypt: BlockDecrypt, encrypt: (Bytes, Block) -> Block, m: Material, tr: Bytes,
                    fields: seq<Bytes>, raw: Bytes, other: Option<Material>)
    requires forall b: Block :: decrypt(m.key, encrypt(m.key, b)) == b
    requires |fields| >= 2 && forall f :: f in fields ==> CARET !in f
    requires NoOuterSpace(Join(fields, CARET))
    ensures Interpret(decrypt, RealtimeFrame(false, tr, 1, Join(fields, CARET)), raw, other)
         == Interpret(decrypt, RealtimeFrame(true, tr, 1, Sealed(encrypt, m, Join(fields, CARET))), raw, Some(m))
  {
    DecryptSealed(encrypt, decrypt, m, Join(fields, CARET));
  }
}
