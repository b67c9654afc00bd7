/** At most one socket is ever open, and none is left open when Close returns. */
module Sockets {
  import opened Prelude
  import opened Text
  import opened Protocol
  import opened Core
  import opened Machine

  predicate NewestClosed(socks: seq<Socket>) {
    socks != [] && socks[|socks| - 1].closed
  }

  /** Every socket but the newest has been closed; the one in use is the newest. */
  predicate OnlyNewestOpen(s: State) {
    && s.socks != []
    && (forall t :: 0 <= t < |s.socks| - 1 ==> s.socks[t].closed)
    && (s.core.transport.Some? ==> s.core.transport.value == |s.socks| - 1)
  }

  /** Points of `run` at which the old socket is gone and no new one has been dialled. */
  predicate Bare(run: RunPc) {
    || (run.Down? && (run.d.Marking? || run.d.Reissuing? || run.d.Rekeying?))
    || (run.Up? && !run.u.Installing? && !run.u.Discarding?)
    || (run.End? && run.e.Announcing?)
  }

  /** What each point of `run` knows about the newest socket. */
  predicate RunHolds(s: State) {
    var none, closed := s.core.transport.None?, NewestClosed(s.socks);
    && (Bare(s.run) ==> none && closed)
    && (s.run.Reader? ==> if s.run.r.Top? then none ==> closed else !none)
    && (s.run.Down? && (s.run.d.Deciding? || s.run.d.Detaching?) ==> none ==> closed)
    && (s.run.Down? && s.run.d.HangingUp? ==> none && (closed || s.run.d.socket == Some(|s.socks| - 1)))
    && (s.run.Up? && s.run.u.Installing? ==> none && s.run.u.t == |s.socks| - 1)
    && (s.run.Up? && s.run.u.Discarding? ==> none && s.run.u.t == |s.socks| - 1 && s.core.closed)
    && (s.run.End? ==> if none then closed else s.core.closed)
  }

  /** The socket Close took its snapshot of. */
  function SocketOf(c: CloserPc): Option<nat> {
    match c
    case Idle => None
    case Unsubscribing(socket, _, _, _) => socket
    case Signalling(socket) => socket
    case ClosingSocket(socket) => socket
    case AwaitingStop(socket) => socket
    case CloseReturned(socket) => socket
  }

  predicate ClosedIt(c: CloserPc) {
    c.AwaitingStop? || c.CloseReturned?
  }

  predicate CloserHolds(s: State) {
    var socket := SocketOf(s.closer);
    && (s.core.closed <==> !s.closer.Idle?)
    && (s.core.closed && s.core.transport.Some? ==> socket == s.core.transport)
    && (socket.Some? ==> socket.value < |s.socks|)
    && (socket.Some? && ClosedIt(s.closer) ==> s.socks[socket.value].closed)
    && (s.done <==> s.closer.ClosingSocket? || ClosedIt(s.closer))
    && (s.closer.CloseReturned? ==> s.stopped)
  }

  predicate FlagsHold(s: State) {
    && (s.stopped <==> s.run == End(Ended))
    && (s.eventsClosed <==> s.run == End(ClosingStopped) || s.run == End(Ended))
  }

  predicate SocketInv(s: State) {
    OnlyNewestOpen(s) && RunHolds(s) && CloserHolds(s) && FlagsHold(s)
  }

  /** Once Close has returned, or `run` has stopped without it, no socket is open. */
  lemma StoppedHoldsNone(s: State)
    requires SocketInv(s) && (s.closer.CloseReturned? || (s.stopped && !s.core.closed))
    ensures s.eventsClosed && forall t :: 0 <= t < |s.socks| ==> s.socks[t].closed
  {
    assert s.run == End(Ended);
  }

  lemma InitHolds(key: Bytes)
    ensures SocketInv(Init(key))
  {}

  lemma ReaderKeeps(s: State, s': State)
    requires SocketInv(s) && s.run.Reader? && ReaderFrame(s, s')
    requires !s.run.r.Top? || s.core.transport.Some? || s'.run.Down?
    ensures SocketInv(s')
  {}

  lemma RequestKeeps(s: State, s': State, id: nat)
    requires SocketInv(s) && RequestFrame(s, s', id)
    ensures SocketInv(s')
  {}

  lemma PassKeeps(s: State, s': State, p: nat)
    requires SocketInv(s) && PassFrame(s, s', p)
    ensures SocketInv(s')
  {}

  lemma HangUpKeeps(s: State, socket: Option<nat>, err: Fault)
    requires SocketInv(s) && s.run == Down(HangingUp(socket, err))
    ensures SocketInv(HangUp(s, socket, err))
  {}

  lemma DiscardKeeps(s: State, t: nat)
    requires SocketInv(s) && s.run == Up(Discarding(t))
    ensures SocketInv(DiscardStep(s, t))
  {}

  lemma DialKeeps(s: State, a: DialAct)
    requires SocketInv(s) && DialNext(s, a).Some?
    ensures SocketInv(DialNext(s, a).value)
  {
    if s.run.Down? {
      DownKeeps(s, a);
    } else if s.run.End? {
      EndKeeps(s, a);
    } else if a.DoDiscard? {
      DiscardKeeps(s, s.run.u.t);
    } else if a.DoDial? || a.DoInstall? {
      NewSocketKeeps(s, a);
    } else {
      WaitKeeps(s, a);
    }
  }

  lemma DownKeeps(s: State, a: DialAct)
    requires SocketInv(s) && s.run.Down? && DialNext(s, a).Some?
    ensures SocketInv(DialNext(s, a).value)
  {
    if a.DoHangUp? {
      HangUpKeeps(s, s.run.d.socket, s.run.d.err);
    }
  }

  lemma WaitKeeps(s: State, a: DialAct)
    requires SocketInv(s) && s.run.Up? && DialNext(s, a).Some? && !a.DoDial? && !a.DoInstall? && !a.DoDiscard?
    ensures SocketInv(DialNext(s, a).value)
  {}

  lemma EndKeeps(s: State, a: DialAct)
    requires SocketInv(s) && s.run.End? && DialNext(s, a).Some?
    ensures SocketInv(DialNext(s, a).value)
  {}

  lemma NewSocketKeeps(s: State, a: DialAct)
    requires SocketInv(s) && (a.DoDial? || a.DoInstall?) && DialNext(s, a).Some?
    ensures SocketInv(DialNext(s, a).value)
  {}

  lemma CloseSocketKeeps(s: State, socket: Option<nat>)
    requires SocketInv(s) && s.closer == ClosingSocket(socket)
    ensures SocketInv(CloseSocket(s, socket))
  {}

  lemma UnsubscribeKeeps(s: State, t: nat, approval: Bytes, active: seq<Subscription>, i: nat, landed: bool)
    requires SocketInv(s) && s.closer == Unsubscribing(Some(t), approval, active, i) && i < |active|
    ensures SocketInv(UnsubscribeStep(s, t, approval, active, i, landed))
  {}

  lemma BeginKeeps(s: State)
    requires SocketInv(s) && s.closer.Idle?
    ensures SocketInv(BeginCloseStep(s))
  {}

  lemma CloserToKeeps(s: State, c: CloserPc)
    requires SocketInv(s) && !s.closer.Idle? && !c.Idle? && SocketOf(c) == SocketOf(s.closer)
    requires c.ClosingSocket? || ClosedIt(c) <==> s.closer.ClosingSocket? || ClosedIt(s.closer)
    requires ClosedIt(c) ==> ClosedIt(s.closer)
    requires c.CloseReturned? ==> s.stopped
    ensures SocketInv(CloserTo(s, c))
  {}

  lemma SignalKeeps(s: State, socket: Option<nat>)
    requires SocketInv(s) && s.closer == Signalling(socket)
    ensures SocketInv(SignalDone(s, socket))
  {}

  lemma CloseKeeps(s: State, landed: bool)
    requires SocketInv(s) && CloseNext(s, landed).Some?
    ensures SocketInv(CloseNext(s, landed).value)
  {
    match s.closer
    case Idle => BeginKeeps(s);
    case Unsubscribing(socket, approval, active, i) =>
      if socket.None? || socket.value >= |s.socks| || i >= |active| {
        CloserToKeeps(s, Signalling(socket));
      } else {
        UnsubscribeKeeps(s, socket.value, approval, active, i, landed);
      }
    case Signalling(socket) => SignalKeeps(s, socket);
    case ClosingSocket(socket) => CloseSocketKeeps(s, socket);
    case AwaitingStop(socket) => CloserToKeeps(s, CloseReturned(socket));
    case CloseReturned(_) =>
  }

  lemma StepKeeps(env: Env, s: State, step: Step)
    requires SocketInv(s) && Next(env, s, step).Some?
    ensures SocketInv(Next(env, s, step).value)
  {
    var s' := Next(env, s, step).value;
    match step
    case ReaderTurn(_) => ReaderKeeps(s, s');
    case DialTurn(a) => DialKeeps(s, a);
    case RequestTurn(id, _) => RequestKeeps(s, s', id);
    case PassTurn(p) => PassKeeps(s, s', p);
    case CloseTurn(landed) => CloseKeeps(s, landed);
    case Consume => OutsideKeeps(s, s');
    case Call(_, _) => OutsideKeeps(s, s');
  }

  /** A turn of the consumer, or a new call. */
  lemma OutsideKeeps(s: State, s': State)
    requires SocketInv(s)
    requires s' == s.(reqs := s'.reqs, consumed := s'.consumed, buffer := s'.buffer)
    ensures SocketInv(s')
  {}
}
