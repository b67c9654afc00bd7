/**
 * Races the protocol leaves open. Each is lost from any state in which it can start, by a schedule
 * of a few steps, and each such state occurs in some run of a connection.
 */
module Races {
  import opened Prelude
  import opened Text
  import opened Protocol
  import opened Core
  import opened Machine
  import opened Waiters
  import opened Safety
  import opened Schedules
  import opened Quiet
  import opened Cycle
  import Subscriptions
  import Stranding
  import Delivery
  import opened Pipeline

  lemma ReachPass(env: Env, s: State, p: nat, s': State)
    requires Reachable(env, s) && PassNext(s, p) == Some(s')
    ensures Reachable(env, s')
  {
    ReachNext(env, s, PassTurn(p), s');
  }

  // ---- an unsubscribe undone ----

  /** A pass has checked its generation for an entry, and an unsubscribe for that entry has not registered. */
  predicate UndoStart(s: State, p: nat, i: nat, id: nat) {
    && p < |s.passes| && s.passes[p].pc == Issuing(i) && i < |s.passes[p].snapshot|
    && id < |s.reqs| && s.reqs[id].pc.Starting? && !s.reqs[id].subscribe
    && s.reqs[id].sub == s.passes[p].snapshot[i] && !s.core.closed
  }

  /**
   * An unsubscribe that registers between a pass's generation check and that pass's own request
   * for the same subscription is undone: the entry is back on the list.
   */
  lemma UnsubscribeUndone(env: Env, s: State, p: nat, i: nat, id: nat) returns (s1: State, s': State)
    requires Reachable(env, s) && UndoStart(s, p, i, id)
    ensures RequestNext(s, id, DoRegister) == Some(s1) && s.reqs[id].sub !in s1.core.subs
    ensures Execute(env, s1, [] + [PassTurn(p)] + [RequestTurn(|s.reqs|, DoRegister)]) == Some(s')
    ensures Reachable(env, s') && s.reqs[id].sub in s'.core.subs
  {
    var x, issued := s.reqs[id].sub, |s.reqs|;
    Subscriptions.RemoveMembers(s.core.subs, x);
    s1 := RegisterStep(s, id);
    ReachRequest(env, s, id, DoRegister, s1);
    var s2 := Issue(s1, p, i);
    ReachPass(env, s1, p, s2);
    assert s2.reqs[issued] == NewRequest(PassOf(p), true, x);
    s' := RegisterStep(s2, issued);
    ReachRequest(env, s2, issued, DoRegister, s');
    Two(env, s1, PassTurn(p), s2, RequestTurn(issued, DoRegister), s');
  }

  lemma Two(env: Env, s: State, a: Step, mid: State, b: Step, s': State)
    requires Next(env, s, a) == Some(mid) && Next(env, mid, b) == Some(s')
    ensures Execute(env, s, [] + [a] + [b]) == Some(s')
  {
    ExecuteLast(env, s, [], a, s);
    ExecuteLast(env, s, [] + [a], b, mid);
  }

  /** The first pass of a connection has checked its generation for the first entry of its list. */
  lemma PassAtWork(env: Env, key: Bytes, key': Bytes, subs: seq<Subscription>, acks: seq<Bytes>) returns (s: State)
    requires Subscriptions.NoDuplicates(subs) && |acks| == |subs| > 0 && key' != []
    requires forall k :: 0 <= k < |acks| ==> Accepts(env, subs[k].tr, acks[k])
    ensures Reachable(env, s) && s.run == Reader(Top) && s.core.transport == Some(1) && s.core.pending == []
    ensures !s.core.closed && s.core.generation == 1 && |s.socks| == 2
    ensures |s.passes| == 1 && s.passes[0].pc == Issuing(0)
    ensures s.passes[0].generation == 1 && s.passes[0].snapshot == subs
  {
    var s0 := RestingOccurs(env, key, key', subs, acks);
    var s1 := InstallStep(s0, key', 1);
    ReachDial(env, s0, DoInstall, s1);
    ReachableKeys(env, s1);
    s := FirstCheck(env, s1);
  }

  /** The first pass takes its snapshot and makes its first check. */
  lemma FirstCheck(env: Env, s: State) returns (s': State)
    requires Reachable(env, s) && !s.core.closed && s.core.subs != []
    requires |s.passes| == 1 && s.passes[0].pc.Snapshotting? && s.passes[0].generation == s.core.generation
    ensures Reachable(env, s') && s'.core == s.core && s'.run == s.run && s'.socks == s.socks && s'.reqs == s.reqs
    ensures s'.passes == [s.passes[0].(snapshot := s.core.subs, pc := Issuing(0))]
  {
    var s1 := Snapshot(s, 0);
    ReachPass(env, s, 0, s1);
    s' := Check(s1, 0, 0);
    ReachPass(env, s1, 0, s');
  }

  lemma UndoStartOccurs(env: Env, key: Bytes, key': Bytes, subs: seq<Subscription>, acks: seq<Bytes>) returns (s: State)
    requires Subscriptions.NoDuplicates(subs) && |acks| == |subs| > 0 && key' != []
    requires forall k :: 0 <= k < |acks| ==> Accepts(env, subs[k].tr, acks[k])
    ensures Reachable(env, s) && |s.reqs| > 0 && UndoStart(s, 0, 0, |s.reqs| - 1)
    ensures s.reqs[|s.reqs| - 1].sub == subs[0]
  {
    var s1 := PassAtWork(env, key, key', subs, acks);
    s := CallStep(s1, false, subs[0]);
    ReachNext(env, s1, Call(false, subs[0]), s);
  }

  // ---- a request that crosses to the next socket ----

  /** A pass has issued a request for a generation that is over, and the request has not registered. */
  predicate CrossStart(s: State, p: nat, id: nat, t: nat) {
    && id < |s.reqs| && s.reqs[id].pc.Starting? && s.reqs[id].owner == PassOf(p) && p < |s.passes|
    && s.passes[p].generation != s.core.generation
    && !s.core.closed && s.core.transport == Some(t) && t < |s.socks|
  }

  /**
   * The generation check and the request it guards are separate sections: a pass that has just
   * issued a request when its socket is replaced puts that one request on the next socket.
   */
  lemma StaleRequestCrosses(env: Env, s: State, p: nat, id: nat, t: nat) returns (s': State)
    requires Reachable(env, s) && CrossStart(s, p, id, t)
    ensures Execute(env, s, [] + [RequestTurn(id, DoRegister)] + [RequestTurn(id, DoWrite(true, true))]) == Some(s')
    ensures Reachable(env, s') && id < |s'.reqs| && t < |s'.socks|
    ensures s'.reqs[id].registered == Some(s.core.generation)
    ensures s'.socks[t].wire == s.socks[t].wire + [FrameOf(s.reqs[id], s.core.key)]
  {
    var s1 := RegisterStep(s, id);
    ReachRequest(env, s, id, DoRegister, s1);
    s' := WriteOk(s1, id, t, s.core.key);
    ReachRequest(env, s1, id, DoWrite(true, true), s');
    Two(env, s, RequestTurn(id, DoRegister), s1, RequestTurn(id, DoWrite(true, true)), s');
  }

  lemma CrossStartOccurs(env: Env, key: Bytes, key': Bytes, subs: seq<Subscription>, acks: seq<Bytes>)
    returns (s: State)
    requires Subscriptions.NoDuplicates(subs) && |acks| == |subs| > 0 && key' != []
    requires forall k :: 0 <= k < |acks| ==> Accepts(env, subs[k].tr, acks[k])
    ensures Reachable(env, s) && |s.reqs| > 0 && CrossStart(s, 0, |s.reqs| - 1, 2)
    ensures s.reqs[|s.reqs| - 1].sub == subs[0]
  {
    var s1 := PassAtWork(env, key, key', subs, acks);
    var s2 := Issue(s1, 0, 0);
    ReachPass(env, s1, 0, s2);
    s := Replace(env, s2, 1, key');
  }

  // ---- a waiter that outlives its socket ----

  /** A request is about to register when the socket is about to be let go (see `Stranding`). */
  lemma LateStartOccurs(env: Env, key: Bytes, subs: seq<Subscription>, acks: seq<Bytes>, x: Subscription)
    returns (s: State)
    requires Subscriptions.NoDuplicates(subs) && |acks| == |subs|
    requires forall k :: 0 <= k < |acks| ==> Accepts(env, subs[k].tr, acks[k])
    ensures Reachable(env, s) && |s.reqs| > 0 && Stranding.LateStart(s, |s.reqs| - 1, Broken)
    ensures s.core.subs == subs && s.reqs[|s.reqs| - 1] == NewRequest(Caller, true, x)
  {
    var s1 := SubscribeAll(env, key, subs, acks);
    var s2 := LoseSocket(env, s1, 0);
    s := CallStep(s2, true, x);
    ReachNext(env, s2, Call(true, x), s);
  }

  // ---- a late ACK ----

  /** Two requests of one transaction are at the head of the list, written and waiting. */
  predicate TwoWaiting(s: State, t: nat, tr: Bytes, first: nat, second: nat) {
    && s.run == Reader(Reading(t)) && tr != [] && first != second
    && |s.core.pending| >= 2 && s.core.pending[0] == Waiter(first, tr) && s.core.pending[1] == Waiter(second, tr)
    && first < |s.reqs| && second < |s.reqs|
    && s.reqs[first].pc.Waiting? && s.reqs[second].pc.Waiting? && s.reqs[second].slot == None
  }

  /**
   * The caller of the older request gives up. The next ACK of the transaction, which is the
   * server's answer to that older request, then grants the younger one.
   */
  lemma LateAckAnswersTheNext(env: Env, s: State, t: nat, tr: Bytes, first: nat, second: nat, text: Bytes)
    returns (s': State)
    requires Reachable(env, s) && TwoWaiting(s, t, tr, first, second) && Accepts(env, tr, text)
    ensures Reachable(env, s') && first < |s'.reqs| && second < |s'.reqs|
    ensures s'.reqs[first].pc == Returned(Some(Cancelled))
    ensures s'.reqs[second].pc.Waiting? && s'.reqs[second].slot == Some(None)
  {
    var s1 := Abandon(s, first, Cancelled);
    ReachRequest(env, s, first, DoCancel, s1);
    var s2 := ForgetSelf(s1, first, Cancelled, false);
    ReachRequest(env, s1, first, DoForget, s2);
    assert RemoveId(s.core.pending, first)[0] == Waiter(second, tr);
    s' := HearFor(env, s2, t, tr, second, text);
  }

  lemma HearFor(env: Env, s: State, t: nat, tr: Bytes, id: nat, text: Bytes) returns (s': State)
    requires Reachable(env, s) && s.run == Reader(Reading(t)) && Accepts(env, tr, text) && tr != []
    requires s.core.pending != [] && s.core.pending[0] == Waiter(id, tr)
    requires id < |s.reqs| && s.reqs[id].pc.Waiting? && s.reqs[id].slot == None
    ensures Reachable(env, s') && s'.reqs == Resolve(s.reqs, id, None)
  {
    var ack := env.classify(text).ack;
    var s1 := ReadMessage(env, s, t, text);
    ReachReader(env, s, DoReadMessage(text), s1);
    var s2 := TakeAck(env, s1, t, ack);
    assert Taken(s1, ack) == (Some(Waiter(id, tr)), tr);
    ReachReader(env, s1, DoJudge, s2);
    s' := GrantFor(env, s2, t, tr, Waiter(id, tr), ack);
  }

  lemma GrantFor(env: Env, s: State, t: nat, tr: Bytes, w: Waiter, ack: AckMessage) returns (s': State)
    requires Reachable(env, s) && s.run == Reader(Clearing(t, tr, Some(w), ack))
    ensures Reachable(env, s') && s'.reqs == Resolve(s.reqs, w.id, None)
  {
    var s1 := ForgetRejection(s, t, tr, Some(w), ack);
    ReachReader(env, s, DoForgetRejection, s1);
    s' := KeepThenDeliver(env, s1, t, tr, w, ack);
  }

  lemma KeepThenDeliver(env: Env, s: State, t: nat, tr: Bytes, w: Waiter, ack: AckMessage) returns (s': State)
    requires Reachable(env, s) && s.run == Reader(Storing(t, tr, Some(w), ack))
    ensures Reachable(env, s') && s'.reqs == Resolve(s.reqs, w.id, None)
  {
    var s1 := StoreStep(env, s, t, tr, Some(w), ack);
    ReachReader(env, s, DoStore, s1);
    s' := DeliverTo(env, s1, t, w);
  }

  lemma DeliverTo(env: Env, s: State, t: nat, w: Waiter) returns (s': State)
    requires Reachable(env, s) && s.run == Reader(Delivering(t, Some(w), None))
    ensures Reachable(env, s') && s'.reqs == Resolve(s.reqs, w.id, None)
  {
    s' := Deliver(s, t, Some(w), None);
    ReachReader(env, s, DoDeliver, s');
  }

  lemma TwoWaitingOccurs(env: Env, key: Bytes, tr: Bytes, a: Bytes, b: Bytes) returns (s: State)
    requires tr != []
    ensures Reachable(env, s) && TwoWaiting(s, 0, tr, 0, 1)
    ensures s.socks != [] && s.socks[0].wire == [WireFrame(key, true, tr, a)] + [WireFrame(key, true, tr, b)]
  {
    var s0 := Begin(env, key);
    var s1 := Submit(env, s0, Subscription(tr, a));
    s := Submit(env, s1, Subscription(tr, b));
    assert s.core.pending == [Waiter(0, tr)] + [Waiter(1, tr)];
    assert s.reqs[0] == s.reqs[..1][0];
    assert [] + [WireFrame(key, true, tr, a)] == [WireFrame(key, true, tr, a)];
  }

  /** A call registers and is written on the first socket. */
  lemma Submit(env: Env, s: State, sub: Subscription) returns (s': State)
    requires Reachable(env, s) && First(s) && s.run == Reader(Reading(0))
    ensures Reachable(env, s') && First(s') && s'.run == s.run && s'.core.key == s.core.key
    ensures s'.core.pending == s.core.pending + [Waiter(|s.reqs|, sub.tr)]
    ensures |s'.reqs| == |s.reqs| + 1 && s'.reqs[..|s.reqs|] == s.reqs
    ensures s'.reqs[|s.reqs|].pc.Waiting? && s'.reqs[|s.reqs|].slot == None
    ensures s'.socks[0].wire == s.socks[0].wire + [WireFrame(s.core.key, true, sub.tr, sub.key)]
  {
    var id := |s.reqs|;
    var s1 := CallStep(s, true, sub);
    ReachNext(env, s, Call(true, sub), s1);
    var s2 := RegisterStep(s1, id);
    ReachRequest(env, s1, id, DoRegister, s2);
    s' := WriteOk(s2, id, 0, s.core.key);
    ReachRequest(env, s2, id, DoWrite(true, true), s');
    assert s'.reqs[..id] == s.reqs;
  }

  // ---- a success after Close ----

  /** A pass has made its last check, with nobody waiting. */
  predicate AboutToTell(s: State, p: nat, t: nat) {
    && p < |s.passes| && s.passes[p].pc.Notifying? && s.core.pending == []
    && s.core.transport == Some(t) && t < |s.socks|
  }

  lemma AboutToTellOccurs(env: Env, key: Bytes, key': Bytes) returns (s: State)
    requires key' != []
    ensures Reachable(env, s) && AboutToTell(s, 0, 1) && s.run == Reader(Top) && s.closer.Idle? && s.core.subs == []
    ensures s.hist.notices == [] && |s.passes| == 1
  {
    var s0 := RestingOccurs(env, key, key', [], []);
    var s1 := InstallStep(s0, key', 1);
    ReachDial(env, s0, DoInstall, s1);
    ReachableKeys(env, s1);
    var s2 := Snapshot(s1, 0);
    ReachPass(env, s1, 0, s2);
    s := Check(s2, 0, 0);
    ReachPass(env, s2, 0, s);
  }

  lemma ReachClose(env: Env, s: State, s': State)
    requires Reachable(env, s) && CloseNext(s, true) == Some(s')
    ensures Reachable(env, s')
  {
    ReachNext(env, s, CloseTurn(true), s');
  }

  /** Close takes its snapshot of an empty list, signals, and closes the socket. */
  lemma CloseGoes(env: Env, s: State, p: nat, t: nat) returns (s': State)
    requires Reachable(env, s) && AboutToTell(s, p, t) && s.run == Reader(Top) && s.closer.Idle? && s.core.subs == []
    ensures Reachable(env, s') && AboutToTell(s', p, t) && s'.run == Reader(Top) && s'.core.closed
    ensures s'.closer == AwaitingStop(Some(t)) && s'.hist.notices == s.hist.notices && s'.passes == s.passes
  {
    var s1 := BeginCloseStep(s);
    ReachClose(env, s, s1);
    var s2 := CloserTo(s1, Signalling(Some(t)));
    ReachClose(env, s1, s2);
    var s3 := SignalDone(s2, Some(t));
    ReachClose(env, s2, s3);
    s' := CloseSocket(s3, Some(t));
    ReachClose(env, s3, s');
  }

  /** The reader notices, and `run` is about to end. */
  lemma ReaderGivesUp(env: Env, s: State, p: nat, t: nat) returns (s': State)
    requires Reachable(env, s) && AboutToTell(s, p, t) && s.run == Reader(Top)
    ensures Reachable(env, s') && s'.run == Down(Deciding(Broken)) && s'.core.closed == s.core.closed
    ensures s'.closer == s.closer && s'.passes == s.passes && s'.hist.notices == s.hist.notices
  {
    var s1 := Enter(s);
    ReachReader(env, s, DoEnter, s1);
    var s2 := ReadError(s1);
    ReachReader(env, s1, DoReadError, s2);
    s' := FailAndLeave(env, s2);
  }

  lemma FailAndLeave(env: Env, s: State) returns (s': State)
    requires Reachable(env, s) && s.run == Reader(Failing(Broken)) && s.core.pending == []
    ensures Reachable(env, s') && s'.run == Down(Deciding(Broken)) && s'.core.closed == s.core.closed
    ensures s'.closer == s.closer && s'.passes == s.passes && s'.hist.notices == s.hist.notices
  {
    var s1 := FailAll(s, Broken);
    ReachReader(env, s, DoFailAll, s1);
    s' := LeaveReading(env, s1);
  }

  lemma LeaveReading(env: Env, s: State) returns (s': State)
    requires Reachable(env, s) && s.run == Reader(Releasing([], Broken))
    ensures Reachable(env, s') && s'.run == Down(Deciding(Broken)) && s'.core.closed == s.core.closed
    ensures s'.closer == s.closer && s'.passes == s.passes && s'.hist.notices == s.hist.notices
  {
    s' := Leave(s, Broken);
    ReachReader(env, s, DoLeave, s');
  }

  /** `run` ends, and Close returns. */
  lemma CloseReturns(env: Env, s: State, socket: Option<nat>) returns (s': State)
    requires Reachable(env, s) && s.run == Down(Deciding(Broken)) && s.core.closed && s.closer == AwaitingStop(socket)
    ensures Reachable(env, s') && s'.closer.CloseReturned? && s'.passes == s.passes
    ensures s'.hist.notices == s.hist.notices
  {
    var s1 := Decide(s, Broken);
    ReachDial(env, s, DoDecide, s1);
    var s2 := CloseEvents(s1);
    ReachDial(env, s1, DoCloseEvents, s2);
    s' := CloseStops(env, s2, socket);
  }

  lemma CloseStops(env: Env, s: State, socket: Option<nat>) returns (s': State)
    requires Reachable(env, s) && s.run == End(ClosingStopped) && s.closer == AwaitingStop(socket)
    ensures Reachable(env, s') && s'.closer.CloseReturned? && s'.passes == s.passes
    ensures s'.hist.notices == s.hist.notices
  {
    var s1 := CloseStopped(s);
    ReachDial(env, s, DoCloseStopped, s1);
    s' := CloserTo(s1, CloseReturned(socket));
    ReachClose(env, s1, s');
  }

  /** The last check and the notification are separate: a pass may tell its success after Close has returned. */
  lemma SuccessAfterClose(env: Env, key: Bytes, key': Bytes) returns (s: State, s': State)
    requires key' != []
    ensures Reachable(env, s) && s.closer.CloseReturned? && s.hist.notices == []
    ensures PassNext(s, 0) == Some(s') && |s'.hist.notices| == 1 && s'.hist.notices[0].Restored?
  {
    var s1 := AboutToTellOccurs(env, key, key');
    var s2 := CloseGoes(env, s1, 0, 1);
    var s3 := ReaderGivesUp(env, s2, 0, 1);
    s := CloseReturns(env, s3, Some(1));
    s' := Notify(s, 0);
  }

  // ---- an event given up ----

  /** The reader sends an event for which there is room, after `done` has been closed. */
  predicate SendingDone(env: Env, s: State, event: Event) {
    s.run == Reader(Sending(0, event)) && s.done && |s.buffer| < env.capacity
  }

  lemma SendingOccurs(env: Env, key: Bytes, text: Bytes, event: Event) returns (s: State)
    requires env.classify(text).Data?
    requires env.interpret(env.classify(text).frame, env.classify(text).text, None) == Publish(event)
    ensures Reachable(env, s) && s.run == Reader(Sending(0, event)) && s.buffer == []
    ensures s.closer.Idle? && s.core.subs == [] && s.core.transport.Some? && s.core.transport.value < |s.socks|
  {
    var s0 := BeginReading(env, key);
    var s1 := ReadMessage(env, s0, 0, text);
    ReachReader(env, s0, DoReadMessage(text), s1);
    s := JudgeData(env, s1, 0, env.classify(text).frame, env.classify(text).text);
    ReachReader(env, s1, DoJudge, s);
  }

  lemma BeginReading(env: Env, key: Bytes) returns (s: State)
    ensures Reachable(env, s) && s.run == Reader(Reading(0)) && s.buffer == [] && s.core.material == map[]
    ensures s.closer.Idle? && s.core.subs == [] && s.core.transport == Some(0) && |s.socks| == 1
  {
    var s0 := Init(key);
    assert Execute(env, s0, []) == Some(s0);
    s := Enter(s0);
    ReachReader(env, s0, DoEnter, s);
  }

  lemma SignalGoes(env: Env, s: State) returns (s': State)
    requires Reachable(env, s) && s.closer.Idle? && s.core.subs == []
    requires s.core.transport.Some? && s.core.transport.value < |s.socks|
    ensures Reachable(env, s') && s'.done && s'.run == s.run && s'.buffer == s.buffer
  {
    var s1 := BeginCloseStep(s);
    ReachClose(env, s, s1);
    var s2 := CloserTo(s1, Signalling(s.core.transport));
    ReachClose(env, s1, s2);
    s' := SignalDone(s2, s.core.transport);
    ReachClose(env, s2, s');
  }

  /** Any frame that amounts to an event can be the one whose event is given up although there is room. */
  lemma EventGivenUp(env: Env, key: Bytes, text: Bytes, event: Event) returns (s: State, s': State)
    requires env.classify(text).Data? && env.capacity > 0
    requires env.interpret(env.classify(text).frame, env.classify(text).text, None) == Publish(event)
    ensures Reachable(env, s) && SendingDone(env, s, event)
    ensures ReaderNext(env, s, DoSkip) == Some(s') && s'.buffer == s.buffer && s'.run == Reader(Reading(0))
    ensures Delivery.Offered(s) == Delivery.Offered(s') + [event]
  {
    var s1 := SendingOccurs(env, key, text, event);
    s := SignalGoes(env, s1);
    s' := SkipEvent(s, 0);
    Delivery.SkipOffer(s, 0, event);
  }
}
