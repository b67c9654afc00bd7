/**
 * One whole life of a connection: subscribe to any list, lose the socket, come back with a new
 * key and restore the list. It shows that the states the reconnect theorems speak of occur, for
 * every list of distinct subscriptions.
 */
module Cycle {
  import opened Prelude
  import opened Text
  import opened Protocol
  import opened Core
  import opened Machine
  import opened Safety
  import opened Subscriptions
  import opened Schedules
  import opened Quiet

  lemma ReachNext(env: Env, s: State, step: Step, s': State)
    requires Reachable(env, s) && Next(env, s, step) == Some(s')
    ensures Reachable(env, s')
  {
    ExecuteOne(env, s, step);
    ReachableLater(env, s, [step], s');
  }

  lemma ReachReader(env: Env, s: State, a: ReaderAct, s': State)
    requires Reachable(env, s) && ReaderNext(env, s, a) == Some(s')
    ensures Reachable(env, s')
  {
    ReachNext(env, s, ReaderTurn(a), s');
  }

  lemma ReachRequest(env: Env, s: State, id: nat, a: RequestAct, s': State)
    requires Reachable(env, s) && RequestNext(s, id, a) == Some(s')
    ensures Reachable(env, s')
  {
    ReachNext(env, s, RequestTurn(id, a), s');
  }

  lemma ReachDial(env: Env, s: State, a: DialAct, s': State)
    requires Reachable(env, s) && DialNext(s, a) == Some(s')
    ensures Reachable(env, s')
  {
    ReachNext(env, s, DialTurn(a), s');
  }

  /** On the first socket, nobody has closed anything and no pass has run. */
  predicate First(s: State) {
    && s.core.transport == Some(0) && |s.socks| == 1 && s.core.generation == 0 && s.passes == []
    && !s.core.closed && s.closer.Idle? && !s.done && !s.stopped && s.attempt == 0 && s.hist.notices == []
  }

  predicate AllReturned(reqs: seq<Request>) {
    forall id :: 0 <= id < |reqs| ==> reqs[id].pc.Returned?
  }

  /** The subscriptions asked for so far have been granted, and the reader reads. */
  predicate Granted(s: State, key: Bytes, subs: seq<Subscription>) {
    && First(s) && s.run == Reader(Reading(0)) && s.core.pending == [] && AllReturned(s.reqs)
    && s.core.key == key && s.core.subs == subs && s.socks[0].wire == Frames(key, subs, true)
  }

  lemma Begin(env: Env, key: Bytes) returns (s: State)
    ensures Reachable(env, s) && Granted(s, key, []) && s.reqs == [] && s.socks[0].wire == []
  {
    var s0 := Init(key);
    assert Execute(env, s0, []) == Some(s0);
    s := Enter(s0);
    ReachReader(env, s0, DoEnter, s);
  }

  /** One request is on the wire and without a verdict; all others have returned. */
  predicate Asked(s: State, key: Bytes, subs: seq<Subscription>, id: nat) {
    && First(s)
    && id == |s.reqs| - 1 && AllReturned(s.reqs[..id]) && s.reqs[id].pc.Waiting? && s.reqs[id].slot == None
    && s.core.key == key && s.core.subs == subs && s.socks[0].wire == Frames(key, subs, true)
  }

  lemma Ask(env: Env, s: State, key: Bytes, subs: seq<Subscription>, sub: Subscription) returns (s': State)
    requires Reachable(env, s) && Granted(s, key, subs) && sub !in subs
    ensures Reachable(env, s') && Asked(s', key, subs + [sub], |s.reqs|) && s'.run == Reader(Reading(0))
    ensures s'.core.pending == [Waiter(|s.reqs|, sub.tr)]
  {
    var id, more := |s.reqs|, subs + [sub];
    var s1 := CallStep(s, true, sub);
    ReachNext(env, s, Call(true, sub), s1);
    var s2 := RegisterStep(s1, id);
    ReachRequest(env, s1, id, DoRegister, s2);
    s' := WriteOk(s2, id, 0, key);
    ReachRequest(env, s2, id, DoWrite(true, true), s');
    assert s'.reqs[..id] == s.reqs;
    assert more[..|subs|] == subs && more[..|subs| + 1] == more;
    FramesNext(key, more, |subs|);
  }

  /** The reader has taken the waiter on an acceptance. */
  lemma Hear(env: Env, s: State, key: Bytes, subs: seq<Subscription>, id: nat, tr: Bytes, text: Bytes)
    returns (s': State)
    requires Reachable(env, s) && Asked(s, key, subs, id) && s.run == Reader(Reading(0)) && Accepts(env, tr, text)
    requires s.core.pending == [Waiter(id, tr)]
    ensures Reachable(env, s') && s'.run == Reader(Clearing(0, tr, Some(Waiter(id, tr)), env.classify(text).ack))
    ensures Asked(s', key, subs, id) && s'.core.pending == []
  {
    var ack := env.classify(text).ack;
    var s1 := ReadMessage(env, s, 0, text);
    ReachReader(env, s, DoReadMessage(text), s1);
    s' := TakeAck(env, s1, 0, ack);
    assert Taken(s1, ack) == (Some(Waiter(id, tr)), tr);
    ReachReader(env, s1, DoJudge, s');
  }

  /** The acceptance reaches the request, which returns. */
  lemma Grant(env: Env, s: State, key: Bytes, subs: seq<Subscription>, id: nat, tr: Bytes, ack: AckMessage)
    returns (s': State)
    requires Reachable(env, s) && s.run == Reader(Clearing(0, tr, Some(Waiter(id, tr)), ack)) && s.core.pending == []
    requires Asked(s, key, subs, id)
    ensures Reachable(env, s') && Granted(s', key, subs)
  {
    var s1 := Keep(env, s, key, subs, id, tr, ack);
    s' := Return(env, s1, key, subs, id, Some(Waiter(id, tr)));
  }

  lemma Keep(env: Env, s: State, key: Bytes, subs: seq<Subscription>, id: nat, tr: Bytes, ack: AckMessage)
    returns (s': State)
    requires Reachable(env, s) && s.run == Reader(Clearing(0, tr, Some(Waiter(id, tr)), ack)) && s.core.pending == []
    requires Asked(s, key, subs, id)
    ensures Reachable(env, s') && s'.run == Reader(Delivering(0, Some(Waiter(id, tr)), None)) && s'.core.pending == []
    ensures Asked(s', key, subs, id)
  {
    var s1 := ForgetRejection(s, 0, tr, Some(Waiter(id, tr)), ack);
    ReachReader(env, s, DoForgetRejection, s1);
    s' := KeepMaterial(env, s1, key, subs, id, tr, ack);
  }

  lemma KeepMaterial(env: Env, s: State, key: Bytes, subs: seq<Subscription>, id: nat, tr: Bytes, ack: AckMessage)
    returns (s': State)
    requires Reachable(env, s) && s.run == Reader(Storing(0, tr, Some(Waiter(id, tr)), ack)) && s.core.pending == []
    requires Asked(s, key, subs, id)
    ensures Reachable(env, s') && s'.run == Reader(Delivering(0, Some(Waiter(id, tr)), None)) && s'.core.pending == []
    ensures Asked(s', key, subs, id)
  {
    s' := StoreStep(env, s, 0, tr, Some(Waiter(id, tr)), ack);
    ReachReader(env, s, DoStore, s');
  }

  lemma Return(env: Env, s: State, key: Bytes, subs: seq<Subscription>, id: nat, w: Option<Waiter>) returns (s': State)
    requires Reachable(env, s) && s.run == Reader(Delivering(0, w, None)) && w.Some? && w.value.id == id
    requires s.core.pending == []
    requires Asked(s, key, subs, id)
    ensures Reachable(env, s') && Granted(s', key, subs)
  {
    var s1 := Deliver(s, 0, w, None);
    ReachReader(env, s, DoDeliver, s1);
    s' := ReceiveVerdict(s1, id);
    ReachRequest(env, s1, id, DoReceive, s');
    forall k | 0 <= k < |s'.reqs| ensures s'.reqs[k].pc.Returned? {
      assert k < id ==> s'.reqs[k] == s.reqs[..id][k];
    }
  }

  /** Any list of distinct subscriptions can be subscribed to, one after the other. */
  lemma {:induction false} SubscribeAll(env: Env, key: Bytes, subs: seq<Subscription>, acks: seq<Bytes>)
    returns (s: State)
    requires NoDuplicates(subs) && |acks| == |subs|
    requires forall k :: 0 <= k < |acks| ==> Accepts(env, subs[k].tr, acks[k])
    ensures Reachable(env, s) && Granted(s, key, subs)
    decreases |subs|
  {
    if subs == [] {
      s := Begin(env, key);
    } else {
      var n := |subs| - 1;
      var front, last := subs[..n], subs[n];
      assert subs == front + [last];
      var s1 := SubscribeAll(env, key, front, acks[..n]);
      var s2 := Ask(env, s1, key, front, last);
      var s3 := Hear(env, s2, key, subs, |s1.reqs|, last.tr, acks[n]);
      s := Grant(env, s3, key, subs, |s1.reqs|, last.tr, env.classify(acks[n]).ack);
    }
  }

  /** What `run` leaves alone while it loses a socket and dials the next one. */
  predicate Beside(s: State, s': State) {
    && s'.reqs == s.reqs && s'.passes == s.passes && s'.closer == s.closer
    && s'.done == s.done && s'.stopped == s.stopped && s'.hist.notices == s.hist.notices
  }

  /** The socket fails while nobody waits, and `run` is about to let go of it. */
  lemma LoseSocket(env: Env, s: State, t: nat) returns (s': State)
    requires Reachable(env, s) && s.run == Reader(Reading(t)) && s.core.pending == [] && !s.core.closed
    ensures Reachable(env, s') && s'.run == Down(Detaching(Broken)) && Beside(s, s')
    ensures s'.core == s.core && s'.socks == s.socks && s'.attempt == s.attempt
  {
    var s1 := ReadError(s);
    ReachReader(env, s, DoReadError, s1);
    var s2 := FailAll(s1, Broken);
    ReachReader(env, s1, DoFailAll, s2);
    s' := LeaveLoop(env, s2);
  }

  lemma LeaveLoop(env: Env, s: State) returns (s': State)
    requires Reachable(env, s) && s.run == Reader(Releasing([], Broken)) && !s.core.closed
    ensures Reachable(env, s') && s'.run == Down(Detaching(Broken)) && Beside(s, s')
    ensures s'.core == s.core && s'.socks == s.socks && s'.attempt == s.attempt
  {
    var s1 := Leave(s, Broken);
    ReachReader(env, s, DoLeave, s1);
    s' := Decide(s1, Broken);
    ReachDial(env, s1, DoDecide, s');
  }

  /** `run` hangs up and sleeps. */
  lemma FallBack(env: Env, s: State) returns (s': State)
    requires Reachable(env, s) && s.run == Down(Detaching(Broken))
    ensures Reachable(env, s') && s'.run == Up(Waking) && Beside(s, s')
    ensures s'.core == s.core.(transport := None) && |s'.socks| == |s.socks| && s'.attempt == s.attempt + 1
  {
    var s1 := DropTransport(s, Broken);
    ReachDial(env, s, DoDropTransport, s1);
    var s2 := HangUp(s1, s.core.transport, Broken);
    ReachDial(env, s1, DoHangUp, s2);
    s' := EndSleep(s2, true);
    ReachDial(env, s2, DoEndSleep(true), s');
  }

  /** The timer has fired, a key is fetched and a socket dialled. */
  lemma ComeBack(env: Env, s: State, key: Bytes) returns (s': State)
    requires Reachable(env, s) && s.run == Up(Waking) && !s.core.closed && key != []
    ensures Reachable(env, s') && s'.run == Up(Installing(key, |s.socks|)) && Beside(s, s')
    ensures |s'.socks| == |s.socks| + 1 && s'.socks[|s.socks|].wire == []
    ensures s'.core == s.core && s'.attempt == s.attempt
  {
    var s1 := WakeCheck(s);
    ReachDial(env, s, DoWakeCheck, s1);
    s' := FetchAndDial(env, s1, key);
  }

  lemma FetchAndDial(env: Env, s: State, key: Bytes) returns (s': State)
    requires Reachable(env, s) && s.run == Up(Approving) && key != []
    ensures Reachable(env, s') && s'.run == Up(Installing(key, |s.socks|)) && Beside(s, s')
    ensures |s'.socks| == |s.socks| + 1 && s'.socks[|s.socks|].wire == []
    ensures s'.core == s.core && s'.attempt == s.attempt
  {
    var s1 := ApproveStep(s, Some(key));
    ReachDial(env, s, DoApprove(Some(key)), s1);
    s' := DialOk(s1, key);
    ReachDial(env, s1, DoDial(true), s');
  }

  /** A socket fails as soon as it is read, and the next one is installed. */
  lemma Replace(env: Env, s: State, t: nat, key: Bytes) returns (s': State)
    requires Reachable(env, s) && s.run == Reader(Top) && s.core.transport == Some(t) && s.core.pending == []
    requires !s.core.closed && key != []
    ensures Reachable(env, s') && s'.reqs == s.reqs && |s'.socks| == |s.socks| + 1
    ensures s.passes <= s'.passes && !s'.core.closed
    ensures s'.core.transport == Some(|s.socks|) && s'.core.generation == s.core.generation + 1
  {
    var s1 := Enter(s);
    ReachReader(env, s, DoEnter, s1);
    var s2 := LoseSocket(env, s1, t);
    s' := Redial(env, s2, key);
  }

  lemma Redial(env: Env, s: State, key: Bytes) returns (s': State)
    requires Reachable(env, s) && s.run == Down(Detaching(Broken)) && !s.core.closed && key != []
    ensures Reachable(env, s') && s'.reqs == s.reqs && |s'.socks| == |s.socks| + 1
    ensures s.passes <= s'.passes && !s'.core.closed
    ensures s'.core.transport == Some(|s.socks|) && s'.core.generation == s.core.generation + 1
  {
    var s1 := FallBack(env, s);
    var s2 := ComeBack(env, s1, key);
    s' := InstallStep(s2, key, |s.socks|);
    ReachDial(env, s2, DoInstall, s');
  }

  /** Every list of distinct subscriptions occurs in a connection about to install its second socket. */
  lemma RestingOccurs(env: Env, key: Bytes, key': Bytes, subs: seq<Subscription>, acks: seq<Bytes>) returns (s: State)
    requires NoDuplicates(subs) && |acks| == |subs| && key' != []
    requires forall k :: 0 <= k < |acks| ==> Accepts(env, subs[k].tr, acks[k])
    ensures Reachable(env, s) && Resting(s) && s.core.subs == subs && s.core.generation == 0
    ensures s.run == Up(Installing(key', 1)) && s.attempt == 1 && s.hist.notices == []
  {
    var s1 := SubscribeAll(env, key, subs, acks);
    var s2 := LoseSocket(env, s1, 0);
    var s3 := FallBack(env, s2);
    s := ComeBack(env, s3, key');
  }

  /**
   * The whole cycle: for any distinct subscriptions there is a run that ends with exactly their
   * subscribe frames, in order and with the new key, on the second socket, and one notification.
   */
  lemma WholeCycle(env: Env, key: Bytes, key': Bytes, subs: seq<Subscription>, acks: seq<Bytes>) returns (s: State)
    requires NoDuplicates(subs) && |acks| == |subs| && key' != []
    requires forall k :: 0 <= k < |acks| ==> Accepts(env, subs[k].tr, acks[k])
    ensures Reachable(env, s) && s.core.subs == subs && s.hist.notices == [Restored(1, 1, |subs|)]
    ensures |s.socks| > 1 && s.socks[1].wire == Frames(key', subs, true)
  {
    var s0 := RestingOccurs(env, key, key', subs, acks);
    s := Restore(env, s0, key', 1, acks);
  }

  predicate RestoredOn(s0: State, s: State, t: nat, key: Bytes) {
    && s.core.subs == s0.core.subs
    && s.hist.notices == s0.hist.notices + [Restored(s0.core.generation + 1, s0.attempt, |s0.core.subs|)]
    && t < |s.socks| && s.socks[t].wire == Frames(key, s0.core.subs, true)
  }

  lemma ReachInstalled(env: Env, s0: State, key: Bytes, t: nat, steps: seq<Step>, s: State)
    requires Reachable(env, s0) && s0.run == Up(Installing(key, t)) && t < |s0.socks|
    requires Execute(env, InstallStep(s0, key, t), steps) == Some(s)
    ensures Reachable(env, s)
  {
    ReachDial(env, s0, DoInstall, InstallStep(s0, key, t));
    ReachableLater(env, InstallStep(s0, key, t), steps, s);
  }

  lemma Restore(env: Env, s0: State, key: Bytes, t: nat, acks: seq<Bytes>) returns (s: State)
    requires Reachable(env, s0) && Resting(s0) && s0.run == Up(Installing(key, t))
    requires |acks| == |s0.core.subs|
    requires forall k :: 0 <= k < |acks| ==> Accepts(env, s0.core.subs[k].tr, acks[k])
    ensures Reachable(env, s) && RestoredOn(s0, s, t, key)
  {
    var steps;
    steps, s := QuietReconnectCompletes(env, s0, acks);
    ReachInstalled(env, s0, key, t, steps, s);
  }
}
