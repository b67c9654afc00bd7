/** Every frame read is judged exactly once, in order, before the next one is read. */
module Arrivals {
  import opened Prelude
  import opened Text
  import opened Protocol
  import opened Pipeline
  import opened Core
  import opened Machine

  /** A frame has been read and not been judged to the end. */
  predicate Judging(run: RunPc) {
    run.Reader? && (run.r.Handling? || run.r.Clearing? || run.r.Storing?)
  }

  /** The ACK is attributed to its own transaction if it names one. */
  predicate Names(ack: AckMessage, tr: Bytes) {
    ack.tr != [] ==> tr == ack.tr
  }

  /** Entry e is the judgement of arrival a. */
  predicate Records(env: Env, a: Arrival, e: Entry) {
    match env.classify(a.text)
    case Data(frame, text) => e == DataRead(a.t, frame, text)
    case Ping(_) => e == PingRead(a.t)
    case Garbage => e == GarbageRead(a.t)
    case Ack(ack) =>
      e.AckRead? && Names(ack, e.tr) && e == AckRead(a.t, e.tr, env.verdict(e.tr, ack) == None, ack.key, ack.iv)
  }

  /** The waiter is one for the transaction the ACK is attributed to. */
  predicate Addressed(w: Option<Waiter>, tr: Bytes) {
    w.Some? ==> w.value.tr == tr
  }

  predicate Accepting(env: Env, a: Arrival, tr: Bytes, w: Option<Waiter>, ack: AckMessage) {
    env.classify(a.text) == Ack(ack) && Names(ack, tr) && env.verdict(tr, ack) == None && Addressed(w, tr)
  }

  /** The verdict to be delivered is the one of the ACK just judged. */
  predicate Answers(env: Env, w: Option<Waiter>, v: Verdict, a: Arrival, e: Entry) {
    e.AckRead? && Addressed(w, e.tr) && env.classify(a.text).Ack? && v == env.verdict(e.tr, env.classify(a.text).ack)
  }

  predicate AnswersLast(env: Env, w: Option<Waiter>, v: Verdict, arrivals: seq<Arrival>, log: seq<Entry>) {
    log != [] && |arrivals| == |log| && Answers(env, w, v, arrivals[|log| - 1], log[|log| - 1])
  }

  predicate Answering(run: RunPc) {
    run.Reader? && run.r.Delivering?
  }

  predicate InHand(env: Env, run: RunPc, a: Arrival)
    requires Judging(run)
  {
    match run.r
    case Handling(t, raw) => a.t == t && raw == env.classify(a.text)
    case Clearing(t, tr, w, ack) => a.t == t && Accepting(env, a, tr, w, ack)
    case Storing(t, tr, w, ack) => a.t == t && Accepting(env, a, tr, w, ack)
  }

  predicate Matched(env: Env, arrivals: seq<Arrival>, log: seq<Entry>) {
    |arrivals| >= |log| && forall i :: 0 <= i < |log| ==> Records(env, arrivals[i], log[i])
  }

  predicate ArrivalInv(env: Env, s: State) {
    && Matched(env, s.hist.arrivals, s.hist.log)
    && |s.hist.arrivals| == |s.hist.log| + (if Judging(s.run) then 1 else 0)
    && (Judging(s.run) ==> InHand(env, s.run, s.hist.arrivals[|s.hist.log|]))
    && (Answering(s.run) ==> AnswersLast(env, s.run.r.waiter, s.run.r.verdict, s.hist.arrivals, s.hist.log))
  }

  lemma InitHolds(env: Env, key: Bytes)
    ensures ArrivalInv(env, Init(key))
  {}

  /** Neither reads nor judges. */
  predicate Passive(s: State, s': State) {
    && s'.hist.arrivals == s.hist.arrivals && s'.hist.log == s.hist.log
    && (s'.run == s.run || (!Judging(s.run) && !Judging(s'.run) && !Answering(s'.run)))
  }

  lemma PassiveKeeps(env: Env, s: State, s': State)
    requires ArrivalInv(env, s) && Passive(s, s')
    ensures ArrivalInv(env, s')
  {}

  lemma LogKeeps(env: Env, s: State, s': State, e: Entry)
    requires ArrivalInv(env, s) && Judging(s.run) && !Judging(s'.run)
    requires s'.hist.arrivals == s.hist.arrivals && s'.hist.log == s.hist.log + [e]
    requires Records(env, s.hist.arrivals[|s.hist.log|], e)
    requires Answering(s'.run) ==> Answers(env, s'.run.r.waiter, s'.run.r.verdict, s.hist.arrivals[|s.hist.log|], e)
    ensures ArrivalInv(env, s')
  {}

  lemma ReadKeeps(env: Env, s: State, t: nat, text: Bytes)
    requires ArrivalInv(env, s) && s.run == Reader(Reading(t))
    ensures ArrivalInv(env, ReadMessage(env, s, t, text))
  {}

  lemma TakeAckKeeps(env: Env, s: State, t: nat, ack: AckMessage)
    requires ArrivalInv(env, s) && s.run == Reader(Handling(t, Ack(ack)))
    ensures ArrivalInv(env, TakeAck(env, s, t, ack))
  {
    var tr := Taken(s, ack).1;
    if env.verdict(tr, ack) != None {
      LogKeeps(env, s, TakeAck(env, s, t, ack), AckRead(t, tr, false, ack.key, ack.iv));
    }
  }

  lemma JudgeKeeps(env: Env, s: State, t: nat, raw: Raw)
    requires ArrivalInv(env, s) && s.run == Reader(Handling(t, raw))
    ensures ArrivalInv(env, Judge(env, s, t, raw))
  {
    match raw
    case Data(frame, text) => LogKeeps(env, s, JudgeData(env, s, t, frame, text), DataRead(t, frame, text));
    case Ping(_) => LogKeeps(env, s, JudgePing(s, t), PingRead(t));
    case Garbage => LogKeeps(env, s, JudgeGarbage(s, t), GarbageRead(t));
    case Ack(ack) => TakeAckKeeps(env, s, t, ack);
  }

  lemma StoreKeeps(env: Env, s: State, t: nat, tr: Bytes, w: Option<Waiter>, ack: AckMessage)
    requires ArrivalInv(env, s) && s.run == Reader(Storing(t, tr, w, ack))
    ensures ArrivalInv(env, StoreStep(env, s, t, tr, w, ack))
  {
    LogKeeps(env, s, StoreStep(env, s, t, tr, w, ack), AckRead(t, tr, true, ack.key, ack.iv));
  }

  lemma OtherReads(env: Env, s: State, a: ReaderAct)
    requires ReaderNext(env, s, a).Some? && !Judging(s.run) && !a.DoReadMessage?
    ensures Passive(s, ReaderNext(env, s, a).value)
  {}

  lemma OtherReadsKeep(env: Env, s: State, a: ReaderAct)
    requires ArrivalInv(env, s) && ReaderNext(env, s, a).Some? && !Judging(s.run) && !a.DoReadMessage?
    ensures ArrivalInv(env, ReaderNext(env, s, a).value)
  {
    OtherReads(env, s, a);
    PassiveKeeps(env, s, ReaderNext(env, s, a).value);
  }

  lemma ClearKeeps(env: Env, s: State, t: nat, tr: Bytes, w: Option<Waiter>, ack: AckMessage)
    requires ArrivalInv(env, s) && s.run == Reader(Clearing(t, tr, w, ack))
    ensures ArrivalInv(env, ForgetRejection(s, t, tr, w, ack))
  {}

  lemma ReaderKeeps(env: Env, s: State, a: ReaderAct)
    requires ArrivalInv(env, s) && ReaderNext(env, s, a).Some?
    ensures ArrivalInv(env, ReaderNext(env, s, a).value)
  {
    match s.run.r
    case Handling(t, raw) => JudgeKeeps(env, s, t, raw);
    case Clearing(t, tr, w, ack) => ClearKeeps(env, s, t, tr, w, ack);
    case Storing(t, tr, w, ack) => StoreKeeps(env, s, t, tr, w, ack);
    case Reading(t) =>
      if a.DoReadMessage? {
        ReadKeeps(env, s, t, a.text);
      } else {
        PassiveKeeps(env, s, ReadError(s));
      }
    case _ => OtherReadsKeep(env, s, a);
  }

  lemma DialPassive(s: State, a: DialAct)
    requires DialNext(s, a).Some?
    ensures Passive(s, DialNext(s, a).value)
  {}

  lemma StepKeeps(env: Env, s: State, step: Step)
    requires ArrivalInv(env, s) && Next(env, s, step).Some?
    ensures ArrivalInv(env, Next(env, s, step).value)
  {
    var s' := Next(env, s, step).value;
    match step
    case ReaderTurn(a) => ReaderKeeps(env, s, a);
    case DialTurn(a) => DialPassive(s, a); PassiveKeeps(env, s, s');
    case RequestTurn(_, _) => PassiveKeeps(env, s, s');
    case PassTurn(_) => PassiveKeeps(env, s, s');
    case CloseTurn(_) => PassiveKeeps(env, s, s');
    case Consume => PassiveKeeps(env, s, s');
    case Call(_, _) => PassiveKeeps(env, s, s');
  }
}
