/** What users of the connection may rely on, whatever the schedule. */
module Theorems {
  import opened Prelude
  import opened Text
  import opened Protocol
  import opened Crypto
  import opened Pipeline
  import opened Core
  import opened Machine
  import opened Safety
  import opened Replay
  import Execution
  import Keys
  import opened Waiters
  import Passes
  import Delivery
  import Arrivals
  import Runs
  import Dials
  import Wires
  import Outcomes
  import Notices
  import Finality
  import Stale
  import Backoff
  import opened Subscriptions

  // ---- sockets ----

  /** Break before make: two sockets are never open at once. */
  lemma OneSocketOpen(env: Env, s: State, i: nat, j: nat)
    requires Reachable(env, s)
    requires i < |s.socks| && j < |s.socks| && !s.socks[i].closed && !s.socks[j].closed
    ensures i == j && (s.core.transport.Some? ==> s.core.transport == Some(i))
  {
    ReachableSockets(env, s);
  }

  /** When Close returns, every socket ever dialled is closed, however `run` came to stop. */
  lemma CloseLeavesNoneOpen(env: Env, s: State, t: nat)
    requires Reachable(env, s) && t < |s.socks|
    requires s.closer.CloseReturned? || (s.stopped && !s.core.closed)
    ensures s.socks[t].closed && s.eventsClosed
  {
    ReachableStopped(env, s);
  }

  /** Everything `run` and Close have done is done. */
  predicate Settled(s0: State, s: State) {
    && s.closer == s0.closer && s.run == s0.run && s.core.closed == s0.core.closed
    && |s.socks| == |s0.socks|
    && s.hist.obs == s0.hist.obs && s.hist.arrivals == s0.hist.arrivals && s.hist.log == s0.hist.log
    && s.hist.farewell == s0.hist.farewell
  }

  lemma StepSettled(env: Env, s: State, step: Step, s': State)
    requires s.run == End(Ended) && s.closer.CloseReturned? && Next(env, s, step) == Some(s')
    ensures Settled(s, s')
  {}

  lemma {:induction false} StaysSettled(env: Env, s0: State, steps: seq<Step>, s: State)
    requires s0.run == End(Ended) && s0.closer.CloseReturned? && Execute(env, s0, steps) == Some(s)
    ensures Settled(s0, s)
    decreases |steps|
  {
    if steps != [] {
      var mid := Execute(env, s0, steps[..|steps| - 1]).value;
      StaysSettled(env, s0, steps[..|steps| - 1], mid);
      StepSettled(env, mid, steps[|steps| - 1], s);
    }
  }

  lemma SilentAfterClose(env: Env, s: State)
    requires Reachable(env, s) && s.closer.CloseReturned?
    ensures Finality.NoneFollows(env, s) <==> Notices.Telling(s.passes) == {}
  {
    ReachableSockets(env, s);
    ReachablePasses(env, s);
    Notices.FewReporters(s);
    Finality.FinalExactly(env, s);
  }

  /**
   * After Close has returned nothing is dialled, read or left open, whatever callers still do, and
   * `run` tells nothing any more. Only a pass that had made its last check and not yet told its
   * success still can; nothing more is told in any run exactly if there is no such pass.
   */
  lemma CloseIsFinal(env: Env, s0: State, steps: seq<Step>, s: State, t: nat)
    requires Reachable(env, s0) && s0.closer.CloseReturned? && Execute(env, s0, steps) == Some(s)
    ensures s0.run == End(Ended) && Settled(s0, s)
    ensures t < |s.socks| ==> s.socks[t].closed
    ensures
      Notices.Successes(s.hist.notices) <= Notices.Successes(s0.hist.notices) + |Notices.Telling(s0.passes)|
    ensures Finality.NoneFollows(env, s0) <==> Notices.Telling(s0.passes) == {}
  {
    ReachableSockets(env, s0);
    FewSuccessesAfterEnd(env, s0, steps, s);
    SilentAfterClose(env, s0);
    StaysSettled(env, s0, steps, s);
    ReachableLater(env, s0, steps, s);
    if t < |s.socks| {
      CloseLeavesNoneOpen(env, s, t);
    }
  }

  /** A socket keeps the key of its one installation; its wire only grows; closing is for good. */
  predicate Grew(a: seq<Socket>, b: seq<Socket>) {
    |a| <= |b| && forall t :: 0 <= t < |a| ==> SocketGrew(a[t], b[t])
  }

  predicate SocketGrew(a: Socket, b: Socket) {
    && (a.installed.Some? ==> b.installed == a.installed)
    && a.wire <= b.wire
    && (a.closed ==> b.closed)
  }

  lemma InstallGrows(s: State, key: Bytes, t: nat)
    requires Keys.KeyInv(s) && s.run == Up(Installing(key, t)) && t < |s.socks|
    ensures Grew(s.socks, InstallStep(s, key, t).socks)
  {}

  lemma DialGrows(s: State, a: DialAct)
    requires Keys.KeyInv(s) && DialNext(s, a).Some?
    ensures Grew(s.socks, DialNext(s, a).value.socks)
  {
    if a.DoInstall? {
      InstallGrows(s, s.run.u.key, s.run.u.t);
    } else if s.run.Down? {
      DownGrows(s, a);
    } else {
      OtherDialsGrow(s, a);
    }
  }

  lemma DownGrows(s: State, a: DialAct)
    requires DialNext(s, a).Some? && s.run.Down?
    ensures Grew(s.socks, DialNext(s, a).value.socks)
  {}

  lemma OtherDialsGrow(s: State, a: DialAct)
    requires DialNext(s, a).Some? && !s.run.Down? && !a.DoInstall?
    ensures Grew(s.socks, DialNext(s, a).value.socks)
  {}

  lemma RequestGrows(s: State, id: nat, a: RequestAct)
    requires RequestNext(s, id, a).Some?
    ensures Grew(s.socks, RequestNext(s, id, a).value.socks)
  {}

  lemma CloseGrows(s: State, landed: bool)
    requires CloseNext(s, landed).Some?
    ensures Grew(s.socks, CloseNext(s, landed).value.socks)
  {}

  lemma StepGrows(env: Env, s: State, step: Step, s': State)
    requires Keys.KeyInv(s) && Next(env, s, step) == Some(s')
    ensures Grew(s.socks, s'.socks)
  {
    match step
    case ReaderTurn(_) =>
    case DialTurn(a) => DialGrows(s, a);
    case RequestTurn(id, a) => RequestGrows(s, id, a);
    case PassTurn(_) =>
    case CloseTurn(landed) => CloseGrows(s, landed);
    case Consume =>
    case Call(_, _) =>
  }

  lemma {:induction false} SocketsOnlyGrow(env: Env, s0: State, steps: seq<Step>, s: State)
    requires Reachable(env, s0) && Execute(env, s0, steps) == Some(s)
    ensures Grew(s0.socks, s.socks)
    decreases |steps|
  {
    if steps != [] {
      var mid := Execute(env, s0, steps[..|steps| - 1]).value;
      SocketsOnlyGrow(env, s0, steps[..|steps| - 1], mid);
      ReachableLater(env, s0, steps[..|steps| - 1], mid);
      ReachableKeys(env, mid);
      StepGrows(env, mid, steps[|steps| - 1], s);
    }
  }

  /** Every frame written on a socket carries the approval key that socket was installed with. */
  lemma WireCarriesInstalledKey(env: Env, s: State, t: nat, i: nat)
    requires Reachable(env, s) && t < |s.socks| && i < |s.socks[t].wire|
    ensures s.socks[t].installed == Some(s.socks[t].wire[i].approval)
  {
    ReachableKeys(env, s);
    assert Keys.GoodSocket(s.socks[t]);
  }

  /** While a socket is in use it is the one of the current generation, and `key` is its key. */
  lemma CurrentKeyIsInstalled(env: Env, s: State)
    requires Reachable(env, s) && s.core.transport.Some?
    ensures s.core.transport.value == s.core.generation == |s.socks| - 1
    ensures s.socks[s.core.generation].installed == Some(s.core.key)
  {
    ReachableKeys(env, s);
  }

  /** The wire of a socket is the frames written on it, each by its own author, none of whom writes twice. */
  lemma EveryFrameHasOneAuthor(env: Env, s: State, t: nat, k: nat)
    requires Reachable(env, s) && t < |s.socks| && k < |s.hist.writes|
    ensures s.socks[t].wire == Wires.FramesOn(s.hist.writes, t)
    ensures
      var w := s.hist.writes[k];
      && w.t < |s.socks|
      && (match w.writer
          case Requester(id) => id < |s.reqs| && w.frame == FrameOf(s.reqs[id], w.frame.approval)
          case Closing(i) => i < |s.hist.farewell.active| && s.hist.farewell.socket == Some(w.t)
                             && w.frame == Frames(s.hist.farewell.approval, s.hist.farewell.active, false)[i])
      && forall j :: 0 <= j < |s.hist.writes| && j != k ==> s.hist.writes[j].writer != w.writer
  {
    ReachableWires(env, s);
    Wires.OneAuthor(s, k);
  }

  /** A request that waits for its ACK, or has been accepted, is on the wire. */
  lemma AcceptedWasWritten(env: Env, s: State, id: nat)
    requires Reachable(env, s) && id < |s.reqs| && (s.reqs[id].pc.Waiting? || s.reqs[id].pc == Returned(None))
    ensures exists k :: 0 <= k < |s.hist.writes| && s.hist.writes[k].writer == Requester(id)
  {
    ReachableWires(env, s);
    assert Wires.HasWritten(s.hist.writes, id);
  }

  /**
   * What Subscribe's return says about the list: a subscription that found no socket, could not be
   * written or was refused is off it; every other return leaves the list as it is, be it an
   * acceptance, a remedy by reconnect, a socket that died meanwhile, a caller who gives up, or the
   * end of the connection.
   */
  lemma SubscribeOutcome(env: Env, s: State, id: nat, a: RequestAct, s': State)
    requires Reachable(env, s) && RequestNext(s, id, a) == Some(s')
    requires s'.reqs[id].pc.Returned? && !s.reqs[id].pc.Returned? && s.reqs[id].subscribe
    ensures
      if Outcomes.Dropped(s'.reqs[id]) then s.reqs[id].sub !in s'.core.subs else s'.core.subs == s.core.subs
    ensures s.reqs[id].pc.Retracting? <==> Outcomes.Dropped(s'.reqs[id])
  {
    ReachableOutcomes(env, s);
    ReachableKeys(env, s);
    Outcomes.ReturnEffect(s, id, a);
  }

  lemma StepAddsOps(env: Env, s: State, step: Step, s': State)
    requires Outcomes.OutcomeInv(s) && Next(env, s, step) == Some(s')
    ensures s.hist.subOps <= s'.hist.subOps
  {
    if step.RequestTurn? {
      Outcomes.RequestOps(s, step.id, step.a);
    } else if step.CloseTurn? {
      Outcomes.CloseOps(s, step.landed);
    }
  }

  lemma {:induction false} OpsGrow(env: Env, s0: State, steps: seq<Step>, s: State)
    requires Reachable(env, s0) && Execute(env, s0, steps) == Some(s)
    ensures s0.hist.subOps <= s.hist.subOps
    decreases |steps|
  {
    if steps != [] {
      var front := steps[..|steps| - 1];
      var mid := Execute(env, s0, front).value;
      OpsGrow(env, s0, front, mid);
      ReachableLater(env, s0, front, mid);
      ReachableOutcomes(env, mid);
      StepAddsOps(env, mid, steps[|steps| - 1], s);
    }
  }

  /** Operation k took x off the list, and somebody is to blame for it. */
  predicate TakenOffBy(s: State, x: Subscription, k: nat) {
    && k < |s.hist.subOps|
    && match s.hist.subOps[k]
       case Add(_, _) => false
       case Remove(y, _) => y == x && Outcomes.Accountable(s.reqs, s.hist.log, s.hist.subOps[k])
       case Reset => s.core.closed
  }

  /**
   * Nothing is lost without a cause: an entry that was on the list and is not any more has been
   * taken off since by Close, by an unsubscribe, or by a subscribe request for it that found no
   * socket, could not be written, or was refused.
   */
  lemma EntryLostOnlyFor(env: Env, s0: State, steps: seq<Step>, s: State, x: Subscription)
    requires Reachable(env, s0) && Execute(env, s0, steps) == Some(s)
    requires x in s0.core.subs && x !in s.core.subs
    ensures exists k: nat :: |s0.hist.subOps| <= k && TakenOffBy(s, x, k)
  {
    ReachableLater(env, s0, steps, s);
    OpsGrow(env, s0, steps, s);
    ReachableSubs(env, s0);
    ReachableSubs(env, s);
    LostEntry(env, s0, s, x);
  }

  lemma LostEntry(env: Env, s0: State, s: State, x: Subscription)
    requires Reachable(env, s) && s0.hist.subOps <= s.hist.subOps
    requires x in Fold(s0.hist.subOps) && x !in Fold(s.hist.subOps)
    ensures exists k: nat :: |s0.hist.subOps| <= k && TakenOffBy(s, x, k)
  {
    var ops, more := s0.hist.subOps, s.hist.subOps[|s0.hist.subOps|..];
    assert s.hist.subOps == ops + more;
    Outcomes.LostBy(ops, more, x);
    var k :| |ops| <= k < |ops + more| && Removes((ops + more)[k], x);
    ReachableOutcomes(env, s);
    assert TakenOffBy(s, x, k);
  }

  // ---- waiters ----

  /** A blocked request is in exactly one place, and never gets a second verdict. */
  lemma NoLostWakeup(env: Env, s: State, id: nat)
    requires Reachable(env, s) && id < |s.reqs|
    ensures
      var r, listed, held := s.reqs[id], HasId(s.core.pending, id), HasId(Hand(s.run), id);
      && (Outstanding(r.pc) ==> r.slot.Some? || listed || held)
      && !(r.slot.Some? && listed) && !(r.slot.Some? && held) && !(listed && held)
      && (Over(r.pc) ==> !listed)
      && r.resolved <= 1
  {
    ReachableWaiters(env, s);
    assert Accounted(s.core.pending, Hand(s.run), id, s.reqs[id]);
  }

  /** The channel of every waiter about to be resolved is empty: the send always succeeds. */
  lemma ChannelNeverFull(env: Env, s: State, i: nat, v: Verdict)
    requires Reachable(env, s) && i < |Hand(s.run)|
    ensures
      var id := Hand(s.run)[i].id;
      && id < |s.reqs| && s.reqs[id].slot == None && s.reqs[id].resolved == 0
      && Resolve(s.reqs, id, v)[id].slot == Some(v)
  {
    ReachableWaiters(env, s);
    assert Unanswered(s.reqs, Hand(s.run)[i]);
  }

  ghost predicate CanRead(env: Env, s: State) {
    exists a :: ReaderNext(env, s, a).Some?
  }

  lemma HoldingMoves(env: Env, s: State)
    requires Hand(s.run) != []
    ensures CanRead(env, s)
  {
    assert s.run.r.Clearing? ==> ReaderNext(env, s, DoForgetRejection).Some?;
    assert s.run.r.Storing? ==> ReaderNext(env, s, DoStore).Some?;
    assert s.run.r.Delivering? ==> ReaderNext(env, s, DoDeliver).Some?;
    assert s.run.r.Releasing? ==> ReaderNext(env, s, DoRelease).Some?;
  }

  /** The text of the newest frame. */
  predicate JustRead(s: State, text: Bytes) {
    s.hist.arrivals != [] && s.hist.arrivals[|s.hist.arrivals| - 1].text == text
  }

  /** A verdict on its way to a waiter is that of the frame just read: an ACK of the waiter's own transaction. */
  lemma VerdictIsTheAcks(env: Env, s: State, w: Waiter, text: Bytes)
    requires Reachable(env, s) && JustRead(s, text)
    requires s.run.Reader? && s.run.r.Delivering? && s.run.r.waiter == Some(w)
    ensures env.classify(text).Ack?
    ensures env.classify(text).ack.tr == [] || env.classify(text).ack.tr == w.tr
    ensures s.run.r.verdict == env.verdict(w.tr, env.classify(text).ack)
  {
    ReachableArrivals(env, s);
    var last := |s.hist.log| - 1;
    assert Arrivals.Records(env, s.hist.arrivals[last], s.hist.log[last]);
  }

  /** And that verdict reaches the request the waiter stands for. */
  lemma VerdictReachesRequest(env: Env, s: State, w: Waiter)
    requires Reachable(env, s) && s.run.Reader? && s.run.r.Delivering? && s.run.r.waiter == Some(w)
    ensures w.id < |s.reqs| && s.reqs[w.id].sub.tr == w.tr
    ensures Deliver(s, s.run.r.t, Some(w), s.run.r.verdict).reqs[w.id].slot == Some(s.run.r.verdict)
  {
    ReachableWaiters(env, s);
    assert Hand(s.run)[0] == w && Unanswered(s.reqs, w);
  }

  /** A blocked request can move as soon as its verdict is there or `run` has ended; a reader that holds it can move. */
  lemma WakeupEnabled(env: Env, s: State, id: nat)
    requires Reachable(env, s) && id < |s.reqs| && s.reqs[id].pc.Waiting?
    ensures s.reqs[id].slot.Some? || s.run == End(Ended) || CanRead(env, s) || HasId(s.core.pending, id)
    ensures s.reqs[id].slot.Some? ==> RequestNext(s, id, DoReceive).Some?
    ensures s.run == End(Ended) ==> RequestNext(s, id, DoSeeStopped).Some?
  {
    NoLostWakeup(env, s, id);
    ReachableSockets(env, s);
    if Hand(s.run) != [] {
      HoldingMoves(env, s);
    }
  }

  function Repeated(step: Step, n: nat): (steps: seq<Step>)
    ensures |steps| == n
  {
    if n == 0 then [] else Repeated(step, n - 1) + [step]
  }

  /** The waiters of the list have been given the error. */
  predicate Woken(reqs: seq<Request>, ws: seq<Waiter>, err: Fault) {
    forall i :: 0 <= i < |ws| ==> ws[i].id < |reqs| && reqs[ws[i].id].slot == Some(Some(err))
  }

  lemma {:induction false} ReleaseAll(env: Env, s: State, ws: seq<Waiter>, err: Fault, n: nat)
    requires WaiterInv(s) && s.run == Reader(Releasing(ws, err)) && n <= |ws|
    ensures var end := Execute(env, s, Repeated(ReaderTurn(DoRelease), n));
      && end.Some? && WaiterInv(end.value) && end.value.run == Reader(Releasing(ws[n..], err))
      && end.value.core == s.core && Woken(end.value.reqs, ws[..n], err)
    decreases n
  {
    if n > 0 {
      var front := Repeated(ReaderTurn(DoRelease), n - 1);
      ReleaseAll(env, s, ws, err, n - 1);
      var mid := Execute(env, s, front).value;
      ReleaseOne(env, mid, ws, err, n - 1);
      ExecuteLast(env, s, front, ReaderTurn(DoRelease), mid);
    }
  }

  lemma ReleaseOne(env: Env, s: State, ws: seq<Waiter>, err: Fault, n: nat)
    requires WaiterInv(s) && n < |ws| && s.run == Reader(Releasing(ws[n..], err)) && Woken(s.reqs, ws[..n], err)
    ensures var s' := Release(s, ws[n..], err);
      && Next(env, s, ReaderTurn(DoRelease)) == Some(s') && s'.core == s.core && WaiterInv(s')
      && s'.run == Reader(Releasing(ws[n + 1..], err)) && Woken(s'.reqs, ws[..n + 1], err)
  {
    var s' := Release(s, ws[n..], err);
    ReleaseKeeps(s, ws[n..], err);
    assert ws[n..][1..] == ws[n + 1..];
    assert Hand(s.run)[0] == ws[n] && Unanswered(s.reqs, ws[n]);
    WokenNext(s.reqs, ws, err, n);
  }

  lemma WokenNext(reqs: seq<Request>, ws: seq<Waiter>, err: Fault, n: nat)
    requires n < |ws| && Woken(reqs, ws[..n], err) && Unanswered(reqs, ws[n])
    ensures Woken(Resolve(reqs, ws[n].id, Some(err)), ws[..n + 1], err)
  {
    forall i | 0 <= i < n + 1 ensures Resolve(reqs, ws[n].id, Some(err))[ws[i].id].slot == Some(Some(err)) {
      if i < n {
        assert ws[..n][i] == ws[i];
      }
    }
  }

  /** Once the socket dies, the reader can hand its error to every listed request without anybody's help. */
  lemma ReaderCanWakeAll(env: Env, s: State, err: Fault)
    requires Reachable(env, s) && s.run == Reader(Failing(err))
    ensures
      var steps := [ReaderTurn(DoFailAll)] + Repeated(ReaderTurn(DoRelease), |s.core.pending|);
      var end := Execute(env, s, steps);
      && end.Some? && end.value.core.pending == [] && Woken(end.value.reqs, s.core.pending, err)
  {
    var first, rest := [ReaderTurn(DoFailAll)], Repeated(ReaderTurn(DoRelease), |s.core.pending|);
    var ws, mid := s.core.pending, FailAll(s, err);
    ExecuteOne(env, s, ReaderTurn(DoFailAll));
    ReachableWaiters(env, s);
    FailAllKeeps(s, err);
    ExecuteJoin(env, s, first, rest);
    ReleaseAll(env, mid, ws, err, |ws|);
    assert ws[..|ws|] == ws;
  }

  /** Registered, and out of the list. */
  predicate Left(s: State, id: nat) {
    id < |s.reqs| && s.reqs[id].registered.Some? && !HasId(s.core.pending, id)
  }

  predicate RequestInv(s: State) {
    WaiterInv(s) && Passes.PassInv(s)
  }

  lemma RequestLeaves(s: State, k: nat, a: RequestAct, id: nat)
    requires RequestInv(s) && RequestNext(s, k, a).Some? && Left(s, id)
    ensures Left(RequestNext(s, k, a).value, id)
  {
    var s' := RequestNext(s, k, a).value;
    Passes.RequestEffect(s, k, a);
    PendingMoves(s, k, a);
    if a.DoRegister? && !s.core.closed {
      AppendIds(s.core.pending, Waiter(k, s.reqs[k].sub.tr), id);
    } else if a.DoForget? {
      RemovedIds(s.core.pending, k, id);
    }
  }

  lemma PendingMoves(s: State, k: nat, a: RequestAct)
    requires RequestNext(s, k, a).Some?
    ensures var p, p' := s.core.pending, RequestNext(s, k, a).value.core.pending;
      if a.DoRegister? && !s.core.closed then p' == p + [Waiter(k, s.reqs[k].sub.tr)]
      else if a.DoForget? then p' == RemoveId(p, k) else p' == p
  {}

  lemma TakeAckLeaves(env: Env, s: State, t: nat, ack: AckMessage, id: nat)
    requires WaiterInv(s) && Left(s, id)
    ensures Left(TakeAck(env, s, t, ack), id)
  {
    var i := FirstMatch(s.core.pending, ack.tr);
    if i < |s.core.pending| {
      DeleteIds(s.core.pending, i, id);
    }
  }

  lemma ReaderPending(env: Env, s: State, a: ReaderAct)
    requires ReaderNext(env, s, a).Some? && !(s.run.r.Handling? && s.run.r.raw.Ack?)
    ensures ReaderNext(env, s, a).value.core.pending in [s.core.pending, []]
  {}

  lemma StepLeaves(env: Env, s: State, step: Step, s': State, id: nat)
    requires RequestInv(s) && Next(env, s, step) == Some(s') && Left(s, id)
    ensures Left(s', id)
  {
    match step
    case ReaderTurn(a) =>
      if s.run.r.Handling? && s.run.r.raw.Ack? {
        TakeAckLeaves(env, s, s.run.r.t, s.run.r.raw.ack, id);
      } else {
        ReaderPending(env, s, a);
      }
    case DialTurn(_) =>
    case RequestTurn(k, a) => RequestLeaves(s, k, a, id);
    case PassTurn(_) =>
    case CloseTurn(_) =>
    case Consume =>
    case Call(_, _) =>
  }

  /** A waiter leaves `pending` once: it is never in the list again, whatever happens afterwards. */
  lemma {:induction false} LeavesOnce(env: Env, s0: State, steps: seq<Step>, s: State, id: nat)
    requires Reachable(env, s0) && Execute(env, s0, steps) == Some(s) && Left(s0, id)
    ensures Left(s, id)
    decreases |steps|
  {
    if steps != [] {
      var mid := Execute(env, s0, steps[..|steps| - 1]).value;
      LeavesOnce(env, s0, steps[..|steps| - 1], mid, id);
      ReachableInv(env, s0);
      Always(env, s0, steps[..|steps| - 1], mid);
      StepLeaves(env, mid, steps[|steps| - 1], s, id);
    }
  }

  // ---- resubscribe passes ----

  /** A pass's requests restore a prefix of its snapshot, one entry each, in order. */
  lemma PassIssuesPrefix(env: Env, s: State, p: nat, j: nat)
    requires Reachable(env, s) && p < |s.passes| && j < |s.passes[p].ids|
    ensures
      var pass, id := s.passes[p], s.passes[p].ids[j];
      && pass.generation == p + 1 <= s.core.generation
      && j < |pass.snapshot| && id < |s.reqs|
      && s.reqs[id].owner == PassOf(p) && s.reqs[id].subscribe && s.reqs[id].sub == pass.snapshot[j]
      && (j > 0 ==> pass.ids[j - 1] < id)
  {
    ReachablePasses(env, s);
    assert Passes.PassOk(s.passes[p], p, s.reqs);
    assert Passes.Restores(s.passes[p], p, s.reqs, j);
  }

  /** And a pass issues no other request. */
  lemma PassIssuesNothingElse(env: Env, s: State, id: nat)
    requires Reachable(env, s) && id < |s.reqs| && s.reqs[id].owner.PassOf?
    ensures s.reqs[id].owner.pass < |s.passes| && id in s.passes[s.reqs[id].owner.pass].ids
  {
    ReachableInv(env, s);
    assert Passes.OwnerListed(s.reqs, s.passes, id);
  }

  /**
   * Only the last request of a pass can miss the pass's own generation. Once that generation is
   * over, no further request of the pass registers in any run exactly if the connection is closed,
   * or the pass has issued none that is yet to register and is not just about to issue one.
   */
  lemma AtMostOneStale(env: Env, s: State, p: nat)
    requires Reachable(env, s) && p < |s.passes|
    ensures
      var pass := s.passes[p];
      && (forall j :: 0 <= j < |pass.ids| ==> pass.ids[j] < |s.reqs|)
      && (forall j :: 0 <= j < |pass.ids| && s.reqs[pass.ids[j]].registered != Some(pass.generation) ==>
            j == |pass.ids| - 1 && !pass.pc.Notifying? && pass.pc != Finished(true))
    ensures s.passes[p].generation != s.core.generation ==>
              (Stale.NoneRegisters(env, s, p) <==> s.core.closed || Stale.Spent(s, p))
  {
    ReachablePasses(env, s);
    var pass := s.passes[p];
    assert Passes.PassOk(pass, p, s.reqs);
    forall j | 0 <= j < |pass.ids| ensures pass.ids[j] < |s.reqs| {
      assert Passes.Restores(pass, p, s.reqs, j);
    }
    forall j | 0 <= j < |pass.ids| && s.reqs[pass.ids[j]].registered != Some(pass.generation)
      ensures j == |pass.ids| - 1 && !pass.pc.Notifying? && pass.pc != Finished(true)
    {
      assert !Passes.OnTime(pass, s.reqs, j);
    }
    if pass.generation != s.core.generation {
      Stale.SpentExactly(env, s, p);
    }
  }

  /** One success notification per generation, sent when the whole snapshot has been requested in it. */
  lemma OneReportPerGeneration(env: Env, s: State, i: nat)
    requires Reachable(env, s) && i < |s.hist.notices| && s.hist.notices[i].Restored?
    ensures
      var notice := s.hist.notices[i];
      && 1 <= notice.generation <= |s.passes|
      && var pass := s.passes[notice.generation - 1];
      && notice == Restored(pass.generation, pass.attempt, |pass.snapshot|) && |pass.ids| == |pass.snapshot|
      && (forall k :: 0 <= k < |pass.ids| ==> Passes.OnTime(pass, s.reqs, k))
      && (forall k :: 0 <= k < |s.hist.notices| && k != i && s.hist.notices[k].Restored? ==>
            s.hist.notices[k].generation != notice.generation)
  {
    ReachablePasses(env, s);
    var p := s.hist.notices[i].generation - 1;
    assert Passes.NoticeOk(s.hist.notices[i], s.passes);
    assert Passes.PassOk(s.passes[p], p, s.reqs);
  }

  // ---- events, drops and decryption material ----

  /** Frames are judged once each, in the order read; only the newest may be in the reader's hand. */
  lemma EveryFrameJudged(env: Env, s: State, i: nat)
    requires Reachable(env, s) && i < |s.hist.arrivals|
    ensures |s.hist.arrivals| - 1 <= |s.hist.log| <= |s.hist.arrivals|
    ensures if i < |s.hist.log| then Arrivals.Records(env, s.hist.arrivals[i], s.hist.log[i])
            else Arrivals.Judging(s.run) && Arrivals.InHand(env, s.run, s.hist.arrivals[i])
  {
    ReachableArrivals(env, s);
  }

  /**
   * Until `done` is closed the consumer has, or will find in the buffer, exactly the events of
   * the frames judged, in order, across all reconnects; afterwards an order-preserving selection.
   */
  lemma EventsConserved(env: Env, s: State)
    requires Reachable(env, s)
    ensures Subsequence(Delivery.Offered(s), Events(env, s.hist.log))
    ensures !s.done ==> Delivery.Offered(s) == Events(env, s.hist.log)
    ensures |s.buffer| <= env.capacity
  {
    ReachableDelivery(env, s);
  }

  /** The reader's next turn can give up the event it is sending. */
  ghost predicate CanLose(env: Env, s: State, event: Event) {
    exists a :: ReaderNext(env, s, a).Some? && ReaderNext(env, s, a).value.buffer != s.buffer + [event]
  }

  /** An event can be given up exactly if `done` is closed, whether or not the buffer has room for it. */
  lemma EventLostExactlyIfDone(env: Env, s: State, t: nat, event: Event)
    requires s.run == Reader(Sending(t, event))
    ensures CanLose(env, s, event) <==> s.done
  {
    if s.done {
      var s' := ReaderNext(env, s, DoSkip).value;
      assert |s'.buffer| != |s.buffer + [event]|;
    }
  }

  lemma DialsKeepClosed(s: State, a: DialAct)
    requires DialNext(s, a).Some?
    ensures s.eventsClosed ==> DialNext(s, a).value.eventsClosed
  {}

  /** Nothing is sent on a closed channel. */
  lemma NoSendAfterClose(env: Env, s: State, step: Step, s': State)
    requires Reachable(env, s) && s.eventsClosed && Next(env, s, step) == Some(s')
    ensures !step.ReaderTurn? && s'.eventsClosed
    ensures !step.Consume? ==> s'.buffer == s.buffer
  {
    ReachableSockets(env, s);
    if step.DialTurn? {
      DialsKeepClosed(s, step.d);
    }
  }

  /** `DroppedFrames` is the number of frames the log says were dropped, and the last one is the one reported. */
  lemma DropsCounted(env: Env, s: State)
    requires Reachable(env, s)
    ensures
      var drops := Drops(env, s.hist.log);
      var counted := |drops| - |Delivery.Noted(s.run)|;
      && 0 <= counted && s.core.stats.dropped == counted
      && (counted > 0 ==> s.core.stats.lastTr == drops[counted - 1].tr
                          && s.core.stats.lastReason == Some(drops[counted - 1].reason))
  {
    ReachableCounted(env, s);
  }

  /**
   * Material provenance: what would decrypt a frame of `tr` now is what the latest accepted ACK
   * attributed to `tr`, read from this very socket and carrying usable material, delivered.
   */
  lemma MaterialProvenance(env: Env, s: State, tr: Bytes, m: Material)
    requires Reachable(env, s)
    ensures Lookup(s.core, tr) == Some(m) <==>
              exists i: nat :: LatestGives(env, s.hist.log, s.core.generation, tr, i, m)
    ensures Lookup(s.core, tr) == None <==>
              forall i :: 0 <= i < |s.hist.log| ==> !Delivers(env, s.hist.log[i], s.core.generation, tr)
    ensures forall t :: Delivery.At(s.run) == Some(t) ==> t == s.core.generation
  {
    ReachableDelivery(env, s);
    Provenance(env, s.hist.log, s.core.generation, tr, m);
    NoProvenance(env, s.hist.log, s.core.generation, tr);
  }

  /**
   * An encrypted execution record read while its transaction's material is held is offered to the
   * consumer with exactly the fields the server joined and the notice at their positions.
   */
  lemma SealedRecordIsOffered(capacity: nat, json: Bytes -> Option<AckMessage>, encrypt: (Bytes, Block) -> Block,
                              decrypt: BlockDecrypt, s: State, t: nat, m: Material, tr: Bytes, count: int,
                              fields: seq<Bytes>)
    requires forall b: Block :: decrypt(m.key, encrypt(m.key, b)) == b
    requires Execution.IsExecution(tr) && MIN_INT <= count <= MAX_INT
    requires |fields| == Execution.FIELD_COUNT && forall f :: f in fields ==> CARET !in f
    requires NoOuterSpace(Join(fields, CARET))
    requires Lookup(s.core, tr) == Some(m)
    ensures
      var env, text := KisEnv(capacity, json, decrypt), SealedFrame(encrypt, m, tr, count, fields);
      var notice := Execution.Notice(fields[2], fields[8], Execution.ParseSide(fields[4]), fields[9], fields[10],
                                     fields[11], fields[13]);
      Judge(env, s, t, env.classify(text)).run ==
        Reader(Sending(t, Event(tr, fields[0], fields, Some(notice), None, text)))
  {
    EndToEnd(encrypt, decrypt, json, m, tr, count, fields);
  }

  // ---- key churn ----

  /** Between any two reissues the server has accepted a request. */
  lemma AcceptBetweenReissues(env: Env, s: State, i: nat, j: nat)
    requires Runs.Sound(env) && Reachable(env, s)
    requires i < j < |s.hist.obs| && s.hist.obs[i].ReissueCall? && s.hist.obs[j].ReissueCall?
    ensures exists k :: i < k < j && s.hist.obs[k].AckAccepted?
  {
    ReachableRun(env, s);
    Runs.SpacedMeans(s.hist.obs, i, j);
  }

  /** No key churn: reissues, and keys a caching provider issues for this connection, follow acceptances. */
  lemma NoKeyChurn(env: Env, s: State)
    requires Runs.Sound(env) && Reachable(env, s)
    ensures Runs.Reissues(s.hist.obs) <= Runs.Accepts(s.hist.obs) + 1
    ensures Runs.Replayed(s.hist.obs).issued <= Runs.Accepts(s.hist.obs) + 2
  {
    ReachableRun(env, s);
    Runs.ReissuesBounded(s.hist.obs);
    Runs.IssuesBounded(s.hist.obs);
  }

  /** A rejected approval key is acted on before anything else is tried, unless a reissue was still unanswered. */
  lemma RejectionIsActedOn(env: Env, s: State, i: nat, j: nat)
    requires Runs.Sound(env) && Reachable(env, s) && i < j < |s.hist.obs|
    requires s.hist.obs[i].AckRejected? && Runs.Goes(s.hist.obs[j])
    ensures exists r: nat :: r < j && s.hist.obs[r].ReissueCall? && (r > i || Runs.Unanswered(s.hist.obs, r, i))
  {
    ReachableRun(env, s);
    Runs.ActedOn(s.hist.obs, i, j);
  }

  /** And the key is never reissued for anything else: every reissue has a rejection of its own. */
  lemma ReissueHasReason(env: Env, s: State, j: nat)
    requires Runs.Sound(env) && Reachable(env, s) && j < |s.hist.obs| && s.hist.obs[j].ReissueCall?
    ensures exists i: nat :: i < j && s.hist.obs[i].AckRejected? && Runs.NoReissue(s.hist.obs, i, j)
  {
    ReachableRun(env, s);
    Runs.HasReason(s.hist.obs, j);
  }

  // ---- coming back ----

  /** Every dial but the first follows a backoff sleep and a key fetched after it, in that order. */
  lemma RedialsArePaced(env: Env, s: State, j: nat)
    requires Reachable(env, s) && j < |s.hist.obs| && s.hist.obs[j].DialCall?
    ensures j > 0 && s.hist.obs[j - 1].ApprovalCall? && s.hist.obs[j - 1].key.Some?
    ensures j > 1 ==> s.hist.obs[j - 2].Slept?
  {
    ReachableDials(env, s);
    Dials.PacedAt(s.hist.obs, j);
    Dials.PacedAt(s.hist.obs, j - 1);
  }

  /** A socket is installed with exactly the key the provider returned for its dial. */
  lemma InstalledKeyIsProviders(env: Env, s: State, t: nat)
    requires Reachable(env, s) && t < |s.socks| && s.socks[t].installed.Some?
    ensures |Dials.DialKeys(s.hist.obs)| == |s.socks| && s.socks[t].installed == Dials.DialKeys(s.hist.obs)[t]
  {
    ReachableDials(env, s);
  }

  /** The k-th sleep is for attempt k: the counter that paces the backoff is never reset. */
  lemma AttemptsCountUp(env: Env, s: State, j: nat)
    requires Reachable(env, s) && j < |s.hist.obs| && s.hist.obs[j].Slept?
    ensures s.hist.obs[j].attempt == Dials.Sleeps(s.hist.obs[..j]) + 1 <= s.attempt
  {
    ReachableDials(env, s);
    Dials.PacedAt(s.hist.obs, j);
    Dials.SleepsGrow(s.hist.obs, j + 1);
    assert s.hist.obs[..j + 1] == s.hist.obs[..j] + [s.hist.obs[j]];
    Dials.Append(s.hist.obs[..j], s.hist.obs[j]);
  }

  /** So without jitter the delays of a run never shrink, whatever succeeds in between. */
  lemma DelaysNeverShrink(env: Env, s: State, config: Backoff.BackoffConfig, i: nat, j: nat, draw: real, draw': real)
    requires Reachable(env, s) && i < j < |s.hist.obs| && s.hist.obs[i].Slept? && s.hist.obs[j].Slept?
    requires config.jitter < 0.0
    ensures s.hist.obs[i].attempt < s.hist.obs[j].attempt
    ensures var b := Backoff.Normalized(config);
      Backoff.Delay(b, s.hist.obs[i].attempt, draw) <= Backoff.Delay(b, s.hist.obs[j].attempt, draw')
  {
    LaterAttempt(env, s, i, j);
    Backoff.DelayMonotone(config, s.hist.obs[i].attempt, s.hist.obs[j].attempt, draw, draw');
  }

  lemma LaterAttempt(env: Env, s: State, i: nat, j: nat)
    requires Reachable(env, s) && i < j < |s.hist.obs| && s.hist.obs[i].Slept? && s.hist.obs[j].Slept?
    ensures s.hist.obs[i].attempt < s.hist.obs[j].attempt
  {
    var before := s.hist.obs[..j];
    AttemptsCountUp(env, s, i);
    AttemptsCountUp(env, s, j);
    Dials.SleepsGrow(before, i + 1);
    assert before[..i + 1] == s.hist.obs[..i] + [s.hist.obs[i]];
    Dials.Append(s.hist.obs[..i], s.hist.obs[i]);
  }

  // ---- how the connection ends ----

  /** After an occupied-session verdict `run` only announces the stop, once, and closes its channels. */
  lemma OccupiedIsTerminal(env: Env, s: State, i: nat, j: nat)
    requires Runs.Sound(env) && Reachable(env, s)
    requires i < j < |s.hist.obs| && s.hist.obs[i].AckOccupied?
    ensures s.hist.obs[j].StoppedNotice? || s.hist.obs[j].EventsClosed? || s.hist.obs[j].StoppedClosed?
    ensures s.hist.obs[j].StoppedNotice? ==> StoppedNotice !in s.hist.obs[..j]
  {
    ReachableRun(env, s);
    Runs.OrderlyMeans(s.hist.obs, j);
    assert s.hist.obs[..j][i] == s.hist.obs[i];
  }

  /** The stop is told at most once, and only by a `run` that has ended. */
  lemma StopToldOnce(env: Env, s: State)
    requires Reachable(env, s)
    ensures Notices.Halts(s.hist.notices) <= 1
    ensures Notices.Halts(s.hist.notices) == 1 ==> s.run.End?
  {
    ReachableNotices(env, s);
  }

  /**
   * A success may still be told after the stop, but only few times: once for every pass that had
   * made its last check when `run` ended, and once for the pass of the last generation; after a
   * Close not even for that one. The stop is final, in every run, exactly if no pass is at its
   * notification and that of the last generation has finished.
   */
  lemma FewSuccessesAfterEnd(env: Env, s0: State, steps: seq<Step>, s: State)
    requires Reachable(env, s0) && s0.run.End? && Execute(env, s0, steps) == Some(s)
    ensures
      Notices.Successes(s.hist.notices) <= Notices.Successes(s0.hist.notices) + |Notices.Telling(s0.passes)|
        + if s0.core.closed then 0 else 1
    ensures Finality.NoneFollows(env, s0) <==> forall p :: 0 <= p < |s0.passes| ==> !Notices.MayReport(s0, p)
  {
    ReachablePasses(env, s0);
    Notices.FewReporters(s0);
    Notices.RunSpends(env, s0, steps, s);
    Finality.FinalExactly(env, s0);
    assert forall p: nat :: p in Notices.Reporters(s0) <==> p < |s0.passes| && Notices.MayReport(s0, p);
  }

  /** `run` ends only by that verdict or by Close, and `events` closes before `stopped`. */
  lemma EndsForAReason(env: Env, s: State)
    requires Runs.Sound(env) && Reachable(env, s) && s.run.End?
    ensures s.core.closed || AckOccupied in s.hist.obs
    ensures s.stopped ==> s.eventsClosed && EventsClosed in s.hist.obs
    ensures StoppedNotice in s.hist.obs ==> AckOccupied in s.hist.obs
  {
    ReachableRun(env, s);
    ReachableSockets(env, s);
  }

  // ---- subscriptions ----

  /** The list is the duplicate-free fold of its history, in order of first unbroken registration. */
  lemma SubscriptionsInOrder(env: Env, s: State) returns (births: seq<nat>)
    requires Reachable(env, s)
    ensures s.core.subs == Fold(s.hist.subOps) && NoDuplicates(s.core.subs)
    ensures InBirthOrder(s.hist.subOps, s.core.subs, births)
  {
    ReachableSubs(env, s);
    births := FoldInBirthOrder(s.hist.subOps);
    OrderDistinct(s.hist.subOps, s.core.subs, births);
  }

  /** Closed means empty, in every later state too: only removals follow Close's snapshot. */
  lemma ClosedIsEmpty(env: Env, s: State)
    requires Reachable(env, s) && s.core.closed
    ensures s.core.subs == []
    ensures exists k: nat :: ResetAt(s.hist.subOps, s.hist.farewell.active, k)
  {
    ReachableSubs(env, s);
  }

  /** Close unsubscribes every entry of its snapshot, in order, before it closes the socket. */
  lemma FarewellComplete(env: Env, s: State)
    requires Reachable(env, s) && s.hist.farewell.socket.Some?
    requires !s.closer.Idle? && !s.closer.Unsubscribing?
    ensures s.hist.farewell.sent == Frames(s.hist.farewell.approval, s.hist.farewell.active, false)
  {
    ReachableSubs(env, s);
    assert s.hist.farewell.active[..|s.hist.farewell.active|] == s.hist.farewell.active;
  }
}
