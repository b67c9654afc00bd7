/** Every request frame on a socket carries the approval key that socket was installed with. */
module Keys {
  import opened Prelude
  import opened Text
  import opened Protocol
  import opened Core
  import opened Machine
  import opened Sockets

  /** Socket t exists and was installed with this key. */
  predicate InstalledWith(socks: seq<Socket>, t: nat, key: Bytes) {
    t < |socks| && socks[t].installed == Some(key)
  }

  predicate GoodSocket(k: Socket) {
    && (k.installed.None? ==> k.wire == [])
    && (forall i :: 0 <= i < |k.wire| ==> k.installed == Some(k.wire[i].approval))
  }

  predicate WireCarriesKeys(socks: seq<Socket>) {
    forall t :: 0 <= t < |socks| ==> GoodSocket(socks[t])
  }

  /** A request that is about to write holds the socket and the key of one installation. */
  predicate RequestsHoldPairs(s: State) {
    forall id :: 0 <= id < |s.reqs| && s.reqs[id].pc.Writing? && s.reqs[id].pc.socket.Some? ==>
      InstalledWith(s.socks, s.reqs[id].pc.socket.value, s.reqs[id].pc.approval)
  }

  predicate CloserHoldsPair(s: State) {
    s.closer.Unsubscribing? && s.closer.socket.Some? ==>
      InstalledWith(s.socks, s.closer.socket.value, s.closer.approval)
  }

  /** Points that `run` passes on its way out after discarding a socket. */
  predicate Leaving(run: RunPc) {
    run.End? || (run.Reader? && run.r.Top?) || (run.Down? && run.d.Deciding?)
  }

  /** The n-th socket is installed as generation n, so sockets and generations are one thing. */
  predicate GenerationsMatch(s: State) {
    && (s.core.transport.Some? ==> s.core.transport.value == s.core.generation && |s.socks| == s.core.generation + 1)
    && s.core.generation < |s.socks|
    && (forall t :: 0 <= t < |s.socks| ==> (s.socks[t].installed.Some? <==> t <= s.core.generation))
    && (s.run.Up? && s.run.u.Installing? ==> s.run.u.t == s.core.generation + 1)
    && (if s.run.Up? && (s.run.u.Installing? || s.run.u.Discarding?) then |s.socks| == s.core.generation + 2
        else |s.socks| == s.core.generation + 1 || (s.core.closed && Leaving(s.run)))
  }

  predicate CurrentPair(s: State) {
    s.core.transport.Some? ==> InstalledWith(s.socks, s.core.transport.value, s.core.key)
  }

  predicate KeyInv(s: State) {
    && CurrentPair(s)
    && WireCarriesKeys(s.socks)
    && RequestsHoldPairs(s)
    && CloserHoldsPair(s)
    && GenerationsMatch(s)
  }

  lemma InitHolds(key: Bytes)
    ensures KeyInv(Init(key))
  {}

  lemma ReaderKeeps(s: State, s': State)
    requires KeyInv(s) && s.run.Reader? && ReaderFrame(s, s')
    requires !s.run.r.Top? || s.core.transport.Some? || s'.run.Down?
    requires !s.run.r.Top? ==> s.core.transport.Some?
    ensures KeyInv(s')
  {}

  lemma PassKeeps(s: State, s': State, p: nat)
    requires KeyInv(s) && PassFrame(s, s', p)
    ensures KeyInv(s')
  {}

  lemma PutKeeps(socks: seq<Socket>, t: nat, f: WireFrame)
    requires WireCarriesKeys(socks) && InstalledWith(socks, t, f.approval)
    ensures WireCarriesKeys(Put(socks, t, f))
  {}

  /** A request that does not write keeps the invariant as long as a pair it newly holds is good. */
  lemma QuietRequestKeeps(s: State, s': State, id: nat)
    requires KeyInv(s) && RequestFrame(s, s', id) && WireCarriesKeys(s'.socks)
    requires s'.reqs[id].pc.Writing? ==> s'.reqs[id].pc == Writing(s.core.transport, s.core.key)
    ensures KeyInv(s')
  {}

  lemma RequestKeeps(s: State, id: nat, a: RequestAct)
    requires KeyInv(s) && RequestNext(s, id, a).Some?
    ensures KeyInv(RequestNext(s, id, a).value)
  {
    var s' := RequestNext(s, id, a).value;
    if a.DoWrite? && s.reqs[id].pc.socket.Some? {
      WriteKeeps(s, id, s.reqs[id].pc.socket.value, s.reqs[id].pc.approval);
    } else {
      SilentRequest(s, id, a);
      QuietRequestKeeps(s, s', id);
    }
  }

  /** A request that does not write changes no wire, and at most takes the current pair in hand. */
  lemma SilentRequest(s: State, id: nat, a: RequestAct)
    requires RequestNext(s, id, a).Some? && !(a.DoWrite? && s.reqs[id].pc.socket.Some?)
    ensures
      var s' := RequestNext(s, id, a).value;
      s'.socks == s.socks && (s'.reqs[id].pc.Writing? ==> s'.reqs[id].pc == Writing(s.core.transport, s.core.key))
  {}

  lemma WriteKeeps(s: State, id: nat, t: nat, approval: Bytes)
    requires KeyInv(s) && id < |s.reqs| && s.reqs[id].pc == Writing(Some(t), approval)
    ensures t < |s.socks|
    ensures KeyInv(WriteOk(s, id, t, approval))
    ensures forall landed :: KeyInv(WriteError(s, id, t, approval, landed))
  {
    PutKeeps(s.socks, t, FrameOf(s.reqs[id], approval));
    QuietRequestKeeps(s, WriteOk(s, id, t, approval), id);
    forall landed ensures KeyInv(WriteError(s, id, t, approval, landed)) {
      QuietRequestKeeps(s, WriteError(s, id, t, approval, landed), id);
    }
  }

  lemma InstallKeeps(s: State, key: Bytes, t: nat)
    requires KeyInv(s) && s.run == Up(Installing(key, t)) && t == |s.socks| - 1 && s.core.transport.None?
    requires s.socks[t].wire == []
    ensures KeyInv(InstallStep(s, key, t))
  {}

  lemma DialOkKeeps(s: State, key: Bytes)
    requires KeyInv(s) && s.run == Up(Dialing(key)) && s.core.transport.None?
    ensures KeyInv(DialOk(s, key))
  {}

  /** The other turns of `run` may close sockets, and change the key only while none is in use. */
  predicate QuietDial(s: State, s': State) {
    && |s'.socks| == |s.socks|
    && (forall t :: 0 <= t < |s.socks| ==> s'.socks[t] == s.socks[t].(closed := s'.socks[t].closed))
    && (s'.core.transport.None? || (s'.core.transport == s.core.transport && s'.core.key == s.core.key))
    && s'.core.generation == s.core.generation
    && (s'.run.Up? && s'.run.u.Installing? ==> s'.run == s.run)
    && (s.run.Up? && (s.run.u.Installing? || s.run.u.Discarding?) ==>
          (s'.run.Up? && s'.run.u.Discarding?) || (s.core.closed && Leaving(s'.run)))
    && (s'.run.Up? && s'.run.u.Discarding? ==> s.run.Up? && s.run.u.Installing?)
  }

  lemma QuietDialKeeps(s: State, s': State)
    requires KeyInv(s) && DialFrame(s, s') && QuietDial(s, s')
    requires |s.socks| != s.core.generation + 1 && Leaving(s.run) ==> Leaving(s'.run)
    ensures KeyInv(s')
  {}

  lemma DownQuiet(s: State, a: DialAct)
    requires DialNext(s, a).Some? && s.run.Down?
    requires s.run.d.Rekeying? ==> s.core.transport.None?
    ensures QuietDial(s, DialNext(s, a).value)
  {
    if a.DoHangUp? {
      assert DialNext(s, a).value == HangUp(s, s.run.d.socket, s.run.d.err);
    } else {
      assert DialNext(s, a).value.socks == s.socks;
    }
  }

  lemma UpQuiet(s: State, a: DialAct)
    requires DialNext(s, a).Some? && s.run.Up? && (a.DoInstall? ==> s.core.closed) && (a.DoDial? ==> !a.ok)
    requires s.run.u.Discarding? ==> s.core.closed
    ensures QuietDial(s, DialNext(s, a).value)
  {
    if a.DoDiscard? {
      assert DialNext(s, a).value == DiscardStep(s, s.run.u.t);
    } else {
      assert DialNext(s, a).value.socks == s.socks;
    }
  }

  lemma EndQuiet(s: State, a: DialAct)
    requires DialNext(s, a).Some? && s.run.End?
    ensures QuietDial(s, DialNext(s, a).value) && DialNext(s, a).value.run.End?
  {}

  lemma DialKeeps(s: State, a: DialAct)
    requires KeyInv(s) && SocketInv(s) && DialNext(s, a).Some?
    ensures KeyInv(DialNext(s, a).value)
  {
    if s.run.Down? {
      DownQuiet(s, a);
      if |s.socks| != s.core.generation + 1 && Leaving(s.run) {
        DecideLeaves(s, a);
      }
      QuietDialKeeps(s, DialNext(s, a).value);
    } else if s.run.End? {
      EndQuiet(s, a);
      QuietDialKeeps(s, DialNext(s, a).value);
    } else {
      UpKeeps(s, a);
    }
  }

  /** With a socket more than generations all is closed, and `run` decides to end. */
  lemma DecideLeaves(s: State, a: DialAct)
    requires DialNext(s, a).Some? && s.run.Down? && (Leaving(s.run) ==> s.core.closed)
    ensures Leaving(s.run) ==> Leaving(DialNext(s, a).value.run)
  {}

  lemma UpKeeps(s: State, a: DialAct)
    requires KeyInv(s) && SocketInv(s) && DialNext(s, a).Some? && s.run.Up?
    ensures KeyInv(DialNext(s, a).value)
  {
    if a.DoInstall? && !s.core.closed {
      InstallKeeps(s, s.run.u.key, s.run.u.t);
    } else if a.DoDial? && a.ok {
      DialOkKeeps(s, s.run.u.key);
    } else {
      UpQuiet(s, a);
      QuietDialKeeps(s, DialNext(s, a).value);
    }
  }

  /** Closing changes no key: whatever it writes must carry the right one. */
  lemma QuietCloseKeeps(s: State, s': State)
    requires KeyInv(s) && CloseFrame(s, s') && WireCarriesKeys(s'.socks) && CloserHoldsPair(s')
    requires s.core.closed ==> s'.core.closed
    ensures KeyInv(s')
  {}

  /** What Close writes, and the pair it holds for writing. */
  lemma CloseWrites(s: State, landed: bool)
    requires WireCarriesKeys(s.socks) && CloserHoldsPair(s) && s.closer.Unsubscribing?
    ensures var s' := CloseNext(s, landed).value; WireCarriesKeys(s'.socks) && CloserHoldsPair(s')
  {
    if s.closer.socket.Some? && s.closer.i < |s.closer.active| {
      var sub := s.closer.active[s.closer.i];
      PutKeeps(s.socks, s.closer.socket.value, WireFrame(s.closer.approval, false, sub.tr, sub.key));
    }
  }

  lemma CloseWritesNothing(s: State, landed: bool)
    requires CurrentPair(s) && WireCarriesKeys(s.socks) && !s.closer.Unsubscribing? && CloseNext(s, landed).Some?
    ensures var s' := CloseNext(s, landed).value; WireCarriesKeys(s'.socks) && CloserHoldsPair(s')
  {}

  lemma CloseKeeps(s: State, landed: bool)
    requires KeyInv(s) && CloseNext(s, landed).Some?
    ensures KeyInv(CloseNext(s, landed).value)
  {
    if s.closer.Unsubscribing? {
      CloseWrites(s, landed);
    } else {
      CloseWritesNothing(s, landed);
    }
    QuietCloseKeeps(s, CloseNext(s, landed).value);
  }

  lemma StepKeeps(env: Env, s: State, step: Step)
    requires SocketInv(s) && KeyInv(s) && Next(env, s, step).Some?
    ensures KeyInv(Next(env, s, step).value)
  {
    var s' := Next(env, s, step).value;
    match step
    case ReaderTurn(_) => ReaderKeeps(s, s');
    case DialTurn(a) => DialKeeps(s, a);
    case RequestTurn(id, a) => RequestKeeps(s, id, a);
    case PassTurn(p) => PassKeeps(s, s', p);
    case CloseTurn(landed) => CloseKeeps(s, landed);
    case Consume =>
    case Call(_, _) =>
  }
}
