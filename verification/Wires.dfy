/**
 * What is on the wire: every frame is one request's own, or Close's for one entry of its snapshot,
 * and nobody writes twice.
 */
module Wires {
  import opened Prelude
  import opened Text
  import opened Protocol
  import opened Core
  import opened Machine
  import Subscriptions

  /** The frames that reached socket t, in order. */
  function FramesOn(writes: seq<Write>, t: nat): seq<WireFrame> {
    if writes == [] then [] else
      FramesOn(writes[..|writes| - 1], t) + if writes[|writes| - 1].t == t then [writes[|writes| - 1].frame] else []
  }

  lemma FramesNext(writes: seq<Write>, w: Write, t: nat)
    ensures FramesOn(writes + [w], t) == FramesOn(writes, t) + if w.t == t then [w.frame] else []
  {
    assert (writes + [w])[..|writes|] == writes;
  }

  lemma {:induction false} NoFrames(writes: seq<Write>, t: nat)
    requires forall k :: 0 <= k < |writes| ==> writes[k].t != t
    ensures FramesOn(writes, t) == []
    decreases |writes|
  {
    if writes != [] {
      NoFrames(writes[..|writes| - 1], t);
    }
  }

  // ---- the invariant ----

  predicate BeforeWrite(pc: RequestPc) {
    pc.Starting? || pc.Writing?
  }

  /** The frame must be on the wire: the request waits for its ACK or has been accepted. */
  predicate Relies(pc: RequestPc) {
    pc.Waiting? || pc == Returned(None)
  }

  /** How far Close has come through its snapshot. */
  function Reached(closer: CloserPc, f: Farewell): nat {
    match closer
    case Idle => 0
    case Unsubscribing(_, _, _, i) => i
    case _ => |f.active|
  }

  predicate OwnRequest(reqs: seq<Request>, w: Write, id: nat) {
    id < |reqs| && w.frame == FrameOf(reqs[id], w.frame.approval) && !BeforeWrite(reqs[id].pc)
  }

  predicate OwnClosing(closer: CloserPc, f: Farewell, w: Write, i: nat) {
    && i < Reached(closer, f) && i < |f.active| && f.socket == Some(w.t)
    && w.frame == WireFrame(f.approval, false, f.active[i].tr, f.active[i].key)
  }

  predicate Own(s: State, w: Write) {
    && w.t < |s.socks|
    && match w.writer
       case Requester(id) => OwnRequest(s.reqs, w, id)
       case Closing(i) => OwnClosing(s.closer, s.hist.farewell, w, i)
  }

  predicate NobodyTwice(writes: seq<Write>) {
    forall j, k :: 0 <= j < k < |writes| ==> writes[j].writer != writes[k].writer
  }

  predicate HasWritten(writes: seq<Write>, id: nat) {
    exists k :: 0 <= k < |writes| && writes[k].writer == Requester(id)
  }

  predicate WireInv(s: State) {
    && (forall t :: 0 <= t < |s.socks| ==> s.socks[t].wire == FramesOn(s.hist.writes, t))
    && (forall k :: 0 <= k < |s.hist.writes| ==> Own(s, s.hist.writes[k]))
    && NobodyTwice(s.hist.writes)
    && (forall id :: 0 <= id < |s.reqs| && Relies(s.reqs[id].pc) ==> HasWritten(s.hist.writes, id))
  }

  lemma InitHolds(key: Bytes)
    ensures WireInv(Init(key))
  {}

  // ---- turns that write nothing ----

  /** Sockets keep their wires; a new one has an empty wire. */
  predicate SameWires(a: seq<Socket>, b: seq<Socket>) {
    && |a| <= |b|
    && (forall t :: 0 <= t < |a| ==> b[t].wire == a[t].wire)
    && (forall t :: |a| <= t < |b| ==> b[t].wire == [])
  }

  /** Requests keep what they ask for and never go back to before their write. */
  predicate Aged(a: seq<Request>, b: seq<Request>) {
    && |a| <= |b|
    && (forall id :: 0 <= id < |a| ==> AgedOne(a[id], b[id]))
  }

  predicate AgedOne(a: Request, b: Request) {
    b.subscribe == a.subscribe && b.sub == a.sub && (BeforeWrite(b.pc) ==> BeforeWrite(a.pc))
  }

  predicate NoNewReliance(a: seq<Request>, b: seq<Request>) {
    forall id :: 0 <= id < |b| && Relies(b[id].pc) ==> id < |a| && Relies(a[id].pc)
  }

  /** Close has not lost ground. */
  predicate Farther(s: State, s': State) {
    var f, f' := s.hist.farewell, s'.hist.farewell;
    s.closer.Idle? || (f'.active == f.active && f'.socket == f.socket && f'.approval == f.approval
      && Reached(s.closer, f) <= Reached(s'.closer, f'))
  }

  lemma OwnStays(s: State, s': State, w: Write)
    requires Own(s, w) && |s.socks| <= |s'.socks| && Aged(s.reqs, s'.reqs) && Farther(s, s')
    ensures Own(s', w)
  {}

  lemma SilentKeeps(s: State, s': State)
    requires WireInv(s) && s'.hist.writes == s.hist.writes
    requires SameWires(s.socks, s'.socks) && Aged(s.reqs, s'.reqs) && NoNewReliance(s.reqs, s'.reqs) && Farther(s, s')
    ensures WireInv(s')
  {
    forall k | 0 <= k < |s'.hist.writes| ensures Own(s', s'.hist.writes[k]) {
      OwnStays(s, s', s.hist.writes[k]);
    }
    forall t | |s.socks| <= t < |s'.socks| ensures FramesOn(s.hist.writes, t) == [] {
      forall k | 0 <= k < |s.hist.writes| ensures s.hist.writes[k].t != t {
        assert Own(s, s.hist.writes[k]);
      }
      NoFrames(s.hist.writes, t);
    }
  }

  // ---- turns that write ----

  lemma LandedFrames(socks: seq<Socket>, writes: seq<Write>, w: Write, t: nat)
    requires w.t < |socks| && t < |socks| && socks[t].wire == FramesOn(writes, t)
    ensures Put(socks, w.t, w.frame)[t].wire == FramesOn(writes + [w], t)
  {
    FramesNext(writes, w, t);
    assert FramesOn(writes, t) + [] == FramesOn(writes, t);
  }

  lemma NewWriter(s: State, w: Write)
    requires WireInv(s)
    requires w.writer.Requester? ==> w.writer.id < |s.reqs| && BeforeWrite(s.reqs[w.writer.id].pc)
    requires w.writer.Closing? ==> w.writer.i >= Reached(s.closer, s.hist.farewell)
    ensures NobodyTwice(s.hist.writes + [w])
  {
    forall k | 0 <= k < |s.hist.writes| ensures s.hist.writes[k].writer != w.writer {
      assert Own(s, s.hist.writes[k]);
    }
  }

  lemma WrittenStays(writes: seq<Write>, w: Write, id: nat)
    ensures HasWritten(writes + [w], id) <==> HasWritten(writes, id) || w.writer == Requester(id)
  {
    if HasWritten(writes, id) {
      var k :| 0 <= k < |writes| && writes[k].writer == Requester(id);
      assert (writes + [w])[k].writer == Requester(id);
    }
    assert (writes + [w])[|writes|] == w;
  }

  lemma LoudKeeps(s: State, s': State, w: Write)
    requires WireInv(s) && w.t < |s.socks|
    requires s'.hist.writes == s.hist.writes + [w] && s'.socks == Put(s.socks, w.t, w.frame)
    requires Aged(s.reqs, s'.reqs) && Farther(s, s') && Own(s', w) && NobodyTwice(s'.hist.writes)
    requires forall id :: 0 <= id < |s'.reqs| && Relies(s'.reqs[id].pc) ==>
               w.writer == Requester(id) || (id < |s.reqs| && Relies(s.reqs[id].pc))
    ensures WireInv(s')
  {
    forall k | 0 <= k < |s'.hist.writes| ensures Own(s', s'.hist.writes[k]) {
      if k < |s.hist.writes| {
        OwnStays(s, s', s.hist.writes[k]);
      }
    }
    forall t | 0 <= t < |s'.socks| ensures s'.socks[t].wire == FramesOn(s'.hist.writes, t) {
      LandedFrames(s.socks, s.hist.writes, w, t);
    }
    forall id | 0 <= id < |s'.reqs| && Relies(s'.reqs[id].pc) ensures HasWritten(s'.hist.writes, id) {
      WrittenStays(s.hist.writes, w, id);
    }
  }

  // ---- the parties ----

  lemma ReaderKeeps(s: State, s': State)
    requires WireInv(s) && ReaderFrame(s, s')
    ensures WireInv(s')
  {
    SilentKeeps(s, s');
  }

  lemma DialWires(s: State, a: DialAct)
    requires DialNext(s, a).Some?
    ensures SameWires(s.socks, DialNext(s, a).value.socks)
  {
    if a.DoDial? {
      NewSocketWires(s, a);
    } else {
      OldSocketWires(s, a);
    }
  }

  lemma NewSocketWires(s: State, a: DialAct)
    requires DialNext(s, a).Some? && a.DoDial?
    ensures SameWires(s.socks, DialNext(s, a).value.socks)
  {}

  lemma OldSocketWires(s: State, a: DialAct)
    requires DialNext(s, a).Some? && !a.DoDial?
    ensures SameWires(s.socks, DialNext(s, a).value.socks)
  {
    if !a.DoHangUp? && !a.DoInstall? && !a.DoDiscard? {
      assert DialNext(s, a).value.socks == s.socks;
    }
  }

  lemma DialKeeps(s: State, a: DialAct)
    requires WireInv(s) && DialNext(s, a).Some?
    ensures WireInv(DialNext(s, a).value)
  {
    DialWires(s, a);
    SilentKeeps(s, DialNext(s, a).value);
  }

  /** A request's own step, apart from its write. */
  lemma RequestAges(s: State, id: nat, a: RequestAct)
    requires RequestNext(s, id, a).Some? && !a.DoWrite?
    ensures
      var s' := RequestNext(s, id, a).value;
      && s'.socks == s.socks && s'.hist.writes == s.hist.writes
      && (BeforeWrite(s'.reqs[id].pc) ==> BeforeWrite(s.reqs[id].pc))
      && (Relies(s'.reqs[id].pc) ==> Relies(s.reqs[id].pc))
  {}

  lemma RequestKeeps(s: State, id: nat, a: RequestAct)
    requires WireInv(s) && RequestNext(s, id, a).Some?
    ensures WireInv(RequestNext(s, id, a).value)
  {
    if a.DoWrite? {
      WriteStepKeeps(s, id, s.reqs[id].pc.socket, s.reqs[id].pc.approval, a.ok, a.landed);
    } else {
      RequestAges(s, id, a);
      SilentKeeps(s, RequestNext(s, id, a).value);
    }
  }

  lemma WriteOkKeeps(s: State, id: nat, t: nat, approval: Bytes)
    requires WireInv(s) && id < |s.reqs| && s.reqs[id].pc.Writing? && t < |s.socks|
    ensures WireInv(WriteOk(s, id, t, approval))
  {
    var w := Write(t, FrameOf(s.reqs[id], approval), Requester(id));
    NewWriter(s, w);
    LoudKeeps(s, WriteOk(s, id, t, approval), w);
  }

  lemma WriteErrorKeeps(s: State, id: nat, t: nat, approval: Bytes, landed: bool)
    requires WireInv(s) && id < |s.reqs| && s.reqs[id].pc.Writing? && t < |s.socks|
    ensures WireInv(WriteError(s, id, t, approval, landed))
  {
    if landed {
      LateErrorKeeps(s, id, t, approval);
    } else {
      SilentKeeps(s, WriteError(s, id, t, approval, landed));
    }
  }

  /** The frame reached the wire although the write reports an error. */
  lemma LateErrorKeeps(s: State, id: nat, t: nat, approval: Bytes)
    requires WireInv(s) && id < |s.reqs| && s.reqs[id].pc.Writing? && t < |s.socks|
    ensures WireInv(WriteError(s, id, t, approval, true))
  {
    var w := Write(t, FrameOf(s.reqs[id], approval), Requester(id));
    NewWriter(s, w);
    LoudKeeps(s, WriteError(s, id, t, approval, true), w);
  }

  lemma WriteStepKeeps(s: State, id: nat, socket: Option<nat>, approval: Bytes, ok: bool, landed: bool)
    requires WireInv(s) && id < |s.reqs| && s.reqs[id].pc == Writing(socket, approval)
    ensures WireInv(RequestNext(s, id, DoWrite(ok, landed)).value)
  {
    if socket.None? || socket.value >= |s.socks| {
      SilentKeeps(s, WriteNowhere(s, id));
    } else if ok {
      WriteOkKeeps(s, id, socket.value, approval);
    } else {
      WriteErrorKeeps(s, id, socket.value, approval, landed);
    }
  }

  lemma PassKeeps(s: State, s': State, p: nat)
    requires WireInv(s) && PassFrame(s, s', p)
    ensures WireInv(s')
  {
    assert forall id :: 0 <= id < |s.reqs| ==> s'.reqs[id] == s'.reqs[..|s.reqs|][id];
    SilentKeeps(s, s');
  }

  lemma UnsubscribeKeeps(s: State, t: nat, approval: Bytes, active: seq<Subscription>, i: nat, landed: bool)
    requires WireInv(s) && s.closer == Unsubscribing(Some(t), approval, active, i) && i < |active| && t < |s.socks|
    requires Subscriptions.FarewellOk(s.closer, s.hist.farewell)
    ensures WireInv(UnsubscribeStep(s, t, approval, active, i, landed))
  {
    var w := Write(t, WireFrame(approval, false, active[i].tr, active[i].key), Closing(i));
    if landed {
      NewWriter(s, w);
      LoudKeeps(s, UnsubscribeStep(s, t, approval, active, i, landed), w);
    } else {
      SilentKeeps(s, UnsubscribeStep(s, t, approval, active, i, landed));
    }
  }

  lemma CloseKeeps(s: State, landed: bool)
    requires WireInv(s) && CloseNext(s, landed).Some? && Subscriptions.FarewellOk(s.closer, s.hist.farewell)
    ensures WireInv(CloseNext(s, landed).value)
  {
    match s.closer
    case Unsubscribing(socket, approval, active, i) =>
      if socket.None? || socket.value >= |s.socks| || i >= |active| {
        SilentKeeps(s, CloserTo(s, Signalling(socket)));
      } else {
        UnsubscribeKeeps(s, socket.value, approval, active, i, landed);
      }
    case CloseReturned(_) =>
    case Idle => BeginKeeps(s);
    case _ => OtherClosesSilent(s, landed); SilentKeeps(s, CloseNext(s, landed).value);
  }

  lemma BeginKeeps(s: State)
    requires WireInv(s) && s.closer.Idle?
    ensures WireInv(BeginCloseStep(s))
  {
    SilentKeeps(s, BeginCloseStep(s));
  }

  lemma OtherClosesSilent(s: State, landed: bool)
    requires CloseNext(s, landed).Some? && !s.closer.Unsubscribing? && !s.closer.Idle?
    ensures
      var s' := CloseNext(s, landed).value;
      SameWires(s.socks, s'.socks) && s'.hist.writes == s.hist.writes && Farther(s, s')
  {}

  lemma StepKeeps(env: Env, s: State, step: Step)
    requires WireInv(s) && Next(env, s, step).Some? && Subscriptions.FarewellOk(s.closer, s.hist.farewell)
    ensures WireInv(Next(env, s, step).value)
  {
    var s' := Next(env, s, step).value;
    match step
    case ReaderTurn(_) => ReaderKeeps(s, s');
    case DialTurn(a) => DialKeeps(s, a);
    case RequestTurn(id, a) => RequestKeeps(s, id, a);
    case PassTurn(p) => PassKeeps(s, s', p);
    case CloseTurn(landed) => CloseKeeps(s, landed);
    case Consume => OutsideKeeps(s, s');
    case Call(_, _) => OutsideKeeps(s, s');
  }

  /** A turn of the consumer, or a new call. */
  lemma OutsideKeeps(s: State, s': State)
    requires WireInv(s) && s'.socks == s.socks && s'.hist == s.hist && s'.closer == s.closer
    requires s.reqs <= s'.reqs && forall id :: |s.reqs| <= id < |s'.reqs| ==> s'.reqs[id].pc.Starting?
    ensures WireInv(s')
  {
    SilentKeeps(s, s');
  }

  // ---- what follows ----

  lemma OneAuthor(s: State, k: nat)
    requires WireInv(s) && k < |s.hist.writes|
    ensures
      var w, f := s.hist.writes[k], s.hist.farewell;
      && w.t < |s.socks|
      && (match w.writer
          case Requester(id) => id < |s.reqs| && w.frame == FrameOf(s.reqs[id], w.frame.approval)
          case Closing(i) => i < |f.active| && f.socket == Some(w.t)
                             && w.frame == Subscriptions.Frames(f.approval, f.active, false)[i])
      && forall j :: 0 <= j < |s.hist.writes| && j != k ==> s.hist.writes[j].writer != w.writer
  {
    assert Own(s, s.hist.writes[k]);
  }
}
