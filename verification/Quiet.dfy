/**
 * A quiet reconnect: nobody else calls, the new socket stays up, and the server accepts every
 * request. Whatever else is interleaved, the resubscribe pass restores exactly what was there.
 */
module Quiet {
  import opened Prelude
  import opened Text
  import opened Protocol
  import opened Pipeline
  import opened Core
  import opened Machine
  import opened Waiters
  import opened Subscriptions
  import opened Schedules

  // ---- the invariant of a quiet reconnect ----

  predicate CalmReader(run: RunPc) {
    run.Reader? && !run.r.Failing? && !run.r.Releasing? && (run.r.Delivering? ==> run.r.verdict == None)
  }

  predicate Steady(q: Setup, s: State) {
    && s.core.transport == Some(q.t) && s.core.key == q.key && s.core.generation == q.generation
    && s.core.subs == q.subs && !s.core.closed && s.closer.Idle? && !s.done && !s.stopped
    && q.t < |s.socks|
    && 1 <= q.generation == |s.passes|
    && (forall p :: 0 <= p < q.generation - 1 ==> s.passes[p].pc.Finished?)
    && q.base <= |s.reqs|
    && (forall id :: 0 <= id < q.base ==> s.reqs[id].pc.Returned?)
    && CalmReader(s.run)
  }

  /** Where the pass is, with n subscriptions to restore. */
  predicate Position(q: Setup, pass: Pass) {
    && pass.generation == q.generation && pass.attempt == q.attempt
    && (if pass.pc.Snapshotting? then pass.ids == [] else pass.snapshot == q.subs)
    && (forall j :: 0 <= j < |pass.ids| ==> pass.ids[j] == q.base + j)
    && match pass.pc
       case Snapshotting => true
       case Checking(i) => |pass.ids| == i <= |q.subs|
       case Issuing(i) => |pass.ids| == i < |q.subs|
       case Awaiting(i, id) => |pass.ids| == i + 1 <= |q.subs| && id == q.base + i
       case Rechecking(_) => false
       case Notifying => |pass.ids| == |q.subs|
       case Finished(reported) => |pass.ids| == |q.subs| && reported
  }

  function Completed(pass: Pass): nat {
    if pass.pc.Awaiting? then pass.pc.i else |pass.ids|
  }

  predicate Open(r: Request) {
    r.pc.Writing? || r.pc.Waiting?
  }

  predicate InProgress(q: Setup, r: Request, sub: Subscription) {
    && r.subscribe && r.sub == sub
    && (r.pc.Starting? || r.pc == Writing(Some(q.t), q.key) || r.pc.Waiting? || r.pc == Returned(None))
    && (r.slot.Some? ==> r.slot.value == None && !r.pc.Starting?)
  }

  /** The requests issued so far: all but the current one have been accepted. */
  predicate Requested(q: Setup, pass: Pass, reqs: seq<Request>) {
    && |reqs| == q.base + |pass.ids|
    && Completed(pass) <= |pass.ids|
    && (forall id :: q.base <= id < q.base + Completed(pass) ==> reqs[id].pc == Returned(None))
    && (pass.pc.Awaiting? ==>
          pass.pc.i < |q.subs| && pass.pc.id < |reqs| && InProgress(q, reqs[pass.pc.id], q.subs[pass.pc.i]))
  }

  /** The waiter that must be listed or in the reader's hand, if any. */
  function Expected(pass: Pass, reqs: seq<Request>): seq<Waiter> {
    if pass.pc.Awaiting? && pass.pc.id < |reqs| && Open(reqs[pass.pc.id]) && reqs[pass.pc.id].slot == None
    then [Waiter(pass.pc.id, reqs[pass.pc.id].sub.tr)] else []
  }

  predicate Held(pending: seq<Waiter>, hand: seq<Waiter>, expected: seq<Waiter>) {
    (pending == expected && hand == []) || (pending == [] && hand == expected)
  }

  /** How many frames have been written. */
  function Sent(pass: Pass, reqs: seq<Request>): nat {
    Completed(pass) +
    if pass.pc.Awaiting? && pass.pc.id < |reqs| && (reqs[pass.pc.id].pc.Waiting? || reqs[pass.pc.id].pc.Returned?)
    then 1 else 0
  }

  predicate Written(q: Setup, pass: Pass, reqs: seq<Request>, wire: seq<WireFrame>) {
    Sent(pass, reqs) <= |q.subs| && wire == Frames(q.key, q.subs[..Sent(pass, reqs)], true)
  }

  function NoticesNow(q: Setup, pass: Pass): seq<Notice> {
    q.notices + if pass.pc.Finished? then [Restored(q.generation, q.attempt, |q.subs|)] else []
  }

  predicate QuietInv(q: Setup, s: State) {
    && Steady(q, s)
    && var pass := Mine(q, s.passes);
    && Position(q, pass)
    && Requested(q, pass, s.reqs)
    && Held(s.core.pending, Hand(s.run), Expected(pass, s.reqs))
    && Written(q, pass, s.reqs, s.socks[q.t].wire)
    && s.hist.notices == NoticesNow(q, pass)
  }

  lemma InstallStarts(s: State)
    requires Resting(s)
    ensures QuietInv(SetupOf(s), InstallStep(s, s.run.u.key, s.run.u.t))
  {
    var q, s' := SetupOf(s), InstallStep(s, s.run.u.key, s.run.u.t);
    assert Frames(q.key, q.subs[..0], true) == [];
    assert s.hist.notices + [] == s.hist.notices;
  }

  // ---- the reader ----

  /** A turn that moves no waiter. */
  predicate Bystander(s: State, s': State) {
    s'.core.pending == s.core.pending && s'.reqs == s.reqs && Hand(s'.run) == Hand(s.run) && CalmReader(s'.run)
  }

  lemma BystanderKeeps(q: Setup, s: State, s': State)
    requires QuietInv(q, s) && ReaderFrame(s, s') && Bystander(s, s')
    ensures QuietInv(q, s')
  {}

  predicate Moves(s: State) {
    s.run.Reader? && ((s.run.r.Handling? && s.run.r.raw.Ack?) || s.run.r.Delivering?)
  }

  lemma ReaderStandsBy(env: Env, s: State, a: ReaderAct)
    requires CalmReader(s.run) && ReaderNext(env, s, a).Some? && !Moves(s) && s.core.transport.Some?
    requires !a.DoReadError? && (a.DoPong? ==> a.ok)
    ensures Bystander(s, ReaderNext(env, s, a).value)
  {
    if s.run.r.Handling? {
      JudgeStandsBy(env, s, s.run.r.t, s.run.r.raw);
    } else if Carrying(s.run.r) {
      CarryingMovesNothing(env, s, a);
    } else {
      IdlingStandsBy(env, s, a);
    }
  }

  lemma IdlingStandsBy(env: Env, s: State, a: ReaderAct)
    requires CalmReader(s.run) && ReaderNext(env, s, a).Some? && s.core.transport.Some?
    requires Idling(s.run.r) && !Carrying(s.run.r) && !a.DoReadError? && (a.DoPong? ==> a.ok)
    ensures Bystander(s, ReaderNext(env, s, a).value)
  {}

  lemma JudgeStandsBy(env: Env, s: State, t: nat, raw: Raw)
    requires s.run == Reader(Handling(t, raw)) && !raw.Ack? && s.core.transport.Some?
    ensures Bystander(s, Judge(env, s, t, raw))
  {}

  lemma TakeKeepsQuiet(env: Env, q: Setup, s: State, t: nat, ack: AckMessage)
    requires QuietInv(q, s) && s.run == Reader(Handling(t, Ack(ack))) && env.verdict(Taken(s, ack).1, ack) == None
    ensures QuietInv(q, TakeAck(env, s, t, ack))
  {
    var s', expected := TakeAck(env, s, t, ack), Expected(Mine(q, s.passes), s.reqs);
    assert Hand(s.run) == [] && s.core.pending == expected;
    if s.core.pending != [] && FirstMatch(s.core.pending, ack.tr) == 0 {
      assert Hand(s'.run) == expected && s'.core.pending == [];
    } else {
      assert Hand(s'.run) == [] && s'.core.pending == expected;
    }
  }

  lemma DeliverKeepsQuiet(q: Setup, s: State, t: nat, w: Option<Waiter>)
    requires QuietInv(q, s) && s.run == Reader(Delivering(t, w, None))
    ensures QuietInv(q, Deliver(s, t, w, None))
  {
    var s', pass := Deliver(s, t, w, None), Mine(q, s.passes);
    if w.Some? {
      var id := w.value.id;
      assert Hand(s.run) == [w.value] == Expected(pass, s.reqs) by {
        assert Hand(s.run)[0] == w.value;
      }
      assert pass.pc.Awaiting? && id == pass.pc.id && s.reqs[id].slot == None;
      assert s'.reqs == s.reqs[id := s.reqs[id].(slot := Some(None), resolved := s.reqs[id].resolved + 1)];
      assert Expected(pass, s'.reqs) == [] && Hand(s'.run) == [] && s'.core.pending == [];
    }
  }

  lemma ReaderKeeps(env: Env, q: Setup, s: State, a: ReaderAct)
    requires QuietInv(q, s) && ReaderNext(env, s, a).Some? && QuietStep(env, s, ReaderTurn(a))
    ensures QuietInv(q, ReaderNext(env, s, a).value)
  {
    if !Moves(s) {
      ReaderStandsBy(env, s, a);
      BystanderKeeps(q, s, ReaderNext(env, s, a).value);
    } else if s.run.r.Handling? {
      TakeKeepsQuiet(env, q, s, s.run.r.t, s.run.r.raw.ack);
    } else {
      DeliverKeepsQuiet(q, s, s.run.r.t, s.run.r.waiter);
    }
  }

  // ---- the requests ----

  /** Only the current request still has steps to take. */
  lemma OnlyCurrentMoves(q: Setup, s: State, id: nat, a: RequestAct)
    requires QuietInv(q, s) && RequestNext(s, id, a).Some?
    ensures Mine(q, s.passes).pc.Awaiting? && id == Mine(q, s.passes).pc.id == |s.reqs| - 1
  {
    assert !s.reqs[id].pc.Returned?;
  }

  /** What a step of the current request must show for the reconnect to stay quiet. */
  lemma CurrentKeeps(q: Setup, s: State, s': State, id: nat)
    requires QuietInv(q, s) && RequestFrame(s, s', id)
    requires Mine(q, s.passes).pc.Awaiting? && id == Mine(q, s.passes).pc.id
    requires s'.core.subs == s.core.subs
    requires InProgress(q, s'.reqs[id], q.subs[Mine(q, s.passes).pc.i])
    requires Held(s'.core.pending, Hand(s.run), Expected(Mine(q, s.passes), s'.reqs))
    requires Written(q, Mine(q, s.passes), s'.reqs, s'.socks[q.t].wire)
    ensures QuietInv(q, s')
  {
    var pass := Mine(q, s.passes);
    assert Requested(q, pass, s'.reqs) by {
      assert id == q.base + Completed(pass);
    }
  }

  lemma AddPresent(subs: seq<Subscription>, i: nat)
    requires i < |subs|
    ensures AddSub(subs, subs[i]) == subs
  {}

  lemma RegisterKeepsQuiet(q: Setup, s: State, id: nat)
    requires QuietInv(q, s) && Mine(q, s.passes).pc.Awaiting? && id == Mine(q, s.passes).pc.id
    requires s.reqs[id].pc.Starting?
    ensures QuietInv(q, RegisterStep(s, id))
  {
    var s', pass := RegisterStep(s, id), Mine(q, s.passes);
    AddPresent(q.subs, pass.pc.i);
    assert s.core.pending == [] && Hand(s.run) == [];
    assert s'.core.pending == [Waiter(id, s.reqs[id].sub.tr)];
    CurrentKeeps(q, s, s', id);
  }

  lemma FramesNext(key: Bytes, subs: seq<Subscription>, n: nat)
    requires n < |subs|
    ensures Frames(key, subs[..n + 1], true) ==
              Frames(key, subs[..n], true) + [WireFrame(key, true, subs[n].tr, subs[n].key)]
  {}

  lemma WriteKeepsQuiet(q: Setup, s: State, id: nat)
    requires QuietInv(q, s) && Mine(q, s.passes).pc.Awaiting? && id == Mine(q, s.passes).pc.id
    requires s.reqs[id].pc == Writing(Some(q.t), q.key)
    ensures QuietInv(q, WriteOk(s, id, q.t, q.key))
  {
    var s', pass := WriteOk(s, id, q.t, q.key), Mine(q, s.passes);
    FramesNext(q.key, q.subs, pass.pc.i);
    assert Expected(pass, s'.reqs) == Expected(pass, s.reqs);
    CurrentKeeps(q, s, s', id);
  }

  lemma ReceiveKeepsQuiet(q: Setup, s: State, id: nat)
    requires QuietInv(q, s) && Mine(q, s.passes).pc.Awaiting? && id == Mine(q, s.passes).pc.id
    requires s.reqs[id].pc.Waiting? && s.reqs[id].slot.Some?
    ensures QuietInv(q, ReceiveVerdict(s, id))
  {
    var s', pass := ReceiveVerdict(s, id), Mine(q, s.passes);
    assert s'.reqs[id].pc == Returned(None);
    assert Expected(pass, s'.reqs) == [] == Expected(pass, s.reqs);
    CurrentKeeps(q, s, s', id);
  }

  lemma RequestKeeps(env: Env, q: Setup, s: State, id: nat, a: RequestAct)
    requires QuietInv(q, s) && RequestNext(s, id, a).Some? && QuietStep(env, s, RequestTurn(id, a))
    ensures QuietInv(q, RequestNext(s, id, a).value)
  {
    OnlyCurrentMoves(q, s, id, a);
    match s.reqs[id].pc
    case Starting => RegisterKeepsQuiet(q, s, id);
    case Writing(_, _) => WriteKeepsQuiet(q, s, id);
    case Waiting => ReceiveKeepsQuiet(q, s, id);
    case _ => assert false;
  }

  // ---- the pass ----

  /** What a step of the pass must show. */
  lemma PassStepKeeps(q: Setup, s: State, s': State)
    requires QuietInv(q, s) && PassFrame(s, s', q.generation - 1)
    requires Position(q, Mine(q, s'.passes))
    requires Requested(q, Mine(q, s'.passes), s'.reqs)
    requires Expected(Mine(q, s.passes), s.reqs) == [] == Expected(Mine(q, s'.passes), s'.reqs)
    requires Sent(Mine(q, s'.passes), s'.reqs) == Sent(Mine(q, s.passes), s.reqs)
    requires s'.hist.notices == NoticesNow(q, Mine(q, s'.passes))
    requires forall id :: 0 <= id < |s.reqs| ==> s'.reqs[id] == s.reqs[id]
    ensures QuietInv(q, s')
  {
    assert Steady(q, s');
  }

  lemma IssueKeepsQuiet(q: Setup, s: State, i: nat)
    requires QuietInv(q, s) && Mine(q, s.passes).pc == Issuing(i)
    ensures i < |Mine(q, s.passes).snapshot|
    ensures QuietInv(q, Issue(s, q.generation - 1, i))
  {
    var s' := Issue(s, q.generation - 1, i);
    assert s'.reqs == s.reqs + [NewRequest(PassOf(q.generation - 1), true, q.subs[i])];
    assert Mine(q, s'.passes).ids == Mine(q, s.passes).ids + [|s.reqs|];
    PassStepKeeps(q, s, s');
  }

  lemma ResumeKeepsQuiet(q: Setup, s: State, i: nat, id: nat)
    requires QuietInv(q, s) && Mine(q, s.passes).pc == Awaiting(i, id) && s.reqs[id].pc.Returned?
    ensures s.reqs[id].pc.result == None && QuietInv(q, Resume(s, q.generation - 1, i, false))
  {
    var s' := Resume(s, q.generation - 1, i, false);
    assert Requested(q, Mine(q, s'.passes), s.reqs);
    PassStepKeeps(q, s, s');
  }

  lemma OtherPassKeepsQuiet(q: Setup, s: State)
    requires QuietInv(q, s) && PassNext(s, q.generation - 1).Some?
    requires !Mine(q, s.passes).pc.Issuing? && !Mine(q, s.passes).pc.Awaiting?
    ensures QuietInv(q, PassNext(s, q.generation - 1).value)
  {
    var s' := PassNext(s, q.generation - 1).value;
    assert s'.reqs == s.reqs;
    assert q.notices + [] == q.notices;
    PassStepKeeps(q, s, s');
  }

  lemma PassKeeps(q: Setup, s: State, p: nat)
    requires QuietInv(q, s) && PassNext(s, p).Some?
    ensures QuietInv(q, PassNext(s, p).value)
  {
    assert p == q.generation - 1;
    match s.passes[p].pc
    case Issuing(i) => IssueKeepsQuiet(q, s, i);
    case Awaiting(i, id) => ResumeKeepsQuiet(q, s, i, id);
    case _ => OtherPassKeepsQuiet(q, s);
  }

  // ---- whole runs ----

  lemma StepKeeps(env: Env, q: Setup, s: State, step: Step, s': State)
    requires QuietInv(q, s) && QuietStep(env, s, step) && Next(env, s, step) == Some(s')
    ensures QuietInv(q, s')
  {
    match step
    case ReaderTurn(a) => ReaderKeeps(env, q, s, a);
    case DialTurn(_) => assert false;
    case RequestTurn(id, a) => RequestKeeps(env, q, s, id, a);
    case PassTurn(p) => PassKeeps(q, s, p);
    case CloseTurn(_) => assert false;
    case Consume =>
    case Call(_, _) => assert false;
  }

  lemma {:induction false} QuietAlways(env: Env, q: Setup, s0: State, steps: seq<Step>, s: State)
    requires QuietInv(q, s0) && Run(Quiet, env, s0, steps) && Execute(env, s0, steps) == Some(s)
    ensures QuietInv(q, s)
    decreases |steps|
  {
    if steps != [] {
      var front := steps[..|steps| - 1];
      var mid := Execute(env, s0, front).value;
      QuietAlways(env, q, s0, front, mid);
      StepKeeps(env, q, mid, steps[|steps| - 1], s);
    }
  }

  /**
   * A quiet reconnect restores exactly. When the pass has reported, for any number of
   * subscriptions and any interleaved data, pings and other frames: the new socket has carried
   * one subscribe frame for each, in the original order and with the new key, the list is
   * unchanged, nobody waits, and every request had been accepted; and until then it has not
   * reported.
   */
  lemma QuietReconnectRestores(env: Env, s0: State, steps: seq<Step>, s: State)
    requires Resting(s0)
    requires
      var s1 := InstallStep(s0, s0.run.u.key, s0.run.u.t);
      Run(Quiet, env, s1, steps) && Execute(env, s1, steps) == Some(s)
    ensures s.core.subs == s0.core.subs
    ensures s.hist.notices != s0.hist.notices ==>
      var n := |s0.core.subs|;
      && s.hist.notices == s0.hist.notices + [Restored(s0.core.generation + 1, s0.attempt, n)]
      && s0.run.u.t < |s.socks| && s.socks[s0.run.u.t].wire == Frames(s0.run.u.key, s0.core.subs, true)
      && s.core.pending == []
      && |s.reqs| == |s0.reqs| + n && forall id :: |s0.reqs| <= id < |s.reqs| ==> s.reqs[id].pc == Returned(None)
  {
    var q := SetupOf(s0);
    InstallStarts(s0);
    QuietAlways(env, q, InstallStep(s0, s0.run.u.key, s0.run.u.t), steps, s);
    var pass := Mine(q, s.passes);
    assert q.subs[..|q.subs|] == q.subs;
    if !pass.pc.Finished? {
      assert q.notices + [] == q.notices;
    }
  }

  // ---- such a reconnect is possible, for any number of subscriptions ----

  /** The text is an ACK by which the server accepts a request for tr. */
  predicate Accepts(env: Env, tr: Bytes, text: Bytes) {
    && env.classify(text).Ack?
    && env.classify(text).ack.tr == tr
    && env.verdict(tr, env.classify(text).ack) == None
  }

  predicate Reads(q: Setup, s: State) {
    s.run == Reader(Reading(q.t))
  }

  /** The pass is between two requests, and nobody waits. */
  predicate Between(q: Setup, s: State, i: nat) {
    Reads(q, s) && s.core.pending == [] && 1 <= q.generation <= |s.passes| && Mine(q, s.passes).pc == Checking(i)
  }

  /** The generation is checked and the request issued. */
  lemma IssueRequest(env: Env, q: Setup, s0: State, steps: seq<Step>, s: State, i: nat)
    returns (steps': seq<Step>, s': State)
    requires Leads(Quiet, env, q, s0, steps, s) && Between(q, s, i) && i < |q.subs|
    ensures Leads(Quiet, env, q, s0, steps', s') && Mine(q, s'.passes).pc == Awaiting(i, |s.reqs|)
    ensures s'.run == s.run && s'.core.pending == []
    ensures s'.reqs == s.reqs + [NewRequest(PassOf(q.generation - 1), true, q.subs[i])]
  {
    var p := q.generation - 1;
    var s1 := Check(s, p, i);
    PassGoes(Quiet, env, q, s0, steps, s, s1);
    s' := Issue(s1, p, i);
    PassGoes(Quiet, env, q, s0, steps + [PassTurn(p)], s1, s');
    steps' := steps + [PassTurn(p)] + [PassTurn(p)];
  }

  /** A request that is listed alone, written, and waiting for its ACK. */
  predicate AloneWaiting(s: State, id: nat, tr: Bytes) {
    s.core.pending == [Waiter(id, tr)] && id < |s.reqs| && s.reqs[id].pc.Waiting? && s.reqs[id].slot == None
  }

  lemma WriteRequest(env: Env, q: Setup, s0: State, steps: seq<Step>, s: State, id: nat)
    returns (steps': seq<Step>, s': State)
    requires Leads(Quiet, env, q, s0, steps, s) && s.core.pending == []
    requires id < |s.reqs| && s.reqs[id].pc.Starting? && s.reqs[id].slot == None
    ensures Leads(Quiet, env, q, s0, steps', s') && s'.passes == s.passes && s'.run == s.run
    ensures AloneWaiting(s', id, s.reqs[id].sub.tr)
  {
    var s1 := RegisterStep(s, id);
    RequestGoes(Quiet, env, q, s0, steps, s, id, DoRegister, s1);
    var steps1 := steps + [RequestTurn(id, DoRegister)];
    s' := WriteOk(s1, id, q.t, q.key);
    RequestGoes(Quiet, env, q, s0, steps1, s1, id, DoWrite(true, true), s');
    steps' := steps1 + [RequestTurn(id, DoWrite(true, true))];
  }

  /** The request holds its acceptance. */
  predicate Accepted(s: State, id: nat) {
    s.core.pending == [] && id < |s.reqs| && s.reqs[id].pc.Waiting? && s.reqs[id].slot == Some(None)
  }

  /** The reader reads the acceptance and takes the waiter. */
  lemma ReadAcceptance(env: Env, q: Setup, s0: State, steps: seq<Step>, s: State, id: nat, tr: Bytes, text: Bytes)
    returns (steps': seq<Step>, s': State)
    requires Leads(Quiet, env, q, s0, steps, s) && Reads(q, s) && AloneWaiting(s, id, tr) && Accepts(env, tr, text)
    ensures Leads(Quiet, env, q, s0, steps', s') && s'.passes == s.passes && Reads(q, s') && Accepted(s', id)
  {
    var ack, w := env.classify(text).ack, Waiter(id, tr);
    var s1 := ReadMessage(env, s, q.t, text);
    ReaderGoes(Quiet, env, q, s0, steps, s, DoReadMessage(text), s1);
    var steps1 := steps + [ReaderTurn(DoReadMessage(text))];
    var s2 := TakeAck(env, s1, q.t, ack);
    assert Taken(s1, ack) == (Some(w), tr) && s2.core.pending == [];
    ReaderGoes(Quiet, env, q, s0, steps1, s1, DoJudge, s2);
    steps', s' := DeliverAcceptance(env, q, s0, steps1 + [ReaderTurn(DoJudge)], s2, id, tr, ack);
  }

  lemma DeliverAcceptance(env: Env, q: Setup, s0: State, steps: seq<Step>, s: State, id: nat, tr: Bytes,
                          ack: AckMessage)
    returns (steps': seq<Step>, s': State)
    requires Leads(Quiet, env, q, s0, steps, s) && s.run == Reader(Clearing(q.t, tr, Some(Waiter(id, tr)), ack))
    requires s.core.pending == [] && id < |s.reqs| && s.reqs[id].pc.Waiting? && s.reqs[id].slot == None
    ensures Leads(Quiet, env, q, s0, steps', s') && s'.passes == s.passes && Reads(q, s') && Accepted(s', id)
  {
    var w := Some(Waiter(id, tr));
    var s1 := ForgetRejection(s, q.t, tr, w, ack);
    ReaderGoes(Quiet, env, q, s0, steps, s, DoForgetRejection, s1);
    steps', s' := KeepAndDeliver(env, q, s0, steps + [ReaderTurn(DoForgetRejection)], s1, id, tr, ack);
  }

  lemma KeepAndDeliver(env: Env, q: Setup, s0: State, steps: seq<Step>, s: State, id: nat, tr: Bytes, ack: AckMessage)
    returns (steps': seq<Step>, s': State)
    requires Leads(Quiet, env, q, s0, steps, s) && s.run == Reader(Storing(q.t, tr, Some(Waiter(id, tr)), ack))
    requires s.core.pending == [] && id < |s.reqs| && s.reqs[id].pc.Waiting? && s.reqs[id].slot == None
    ensures Leads(Quiet, env, q, s0, steps', s') && s'.passes == s.passes && Reads(q, s') && Accepted(s', id)
  {
    var w := Some(Waiter(id, tr));
    var s1 := StoreStep(env, s, q.t, tr, w, ack);
    ReaderGoes(Quiet, env, q, s0, steps, s, DoStore, s1);
    s' := DeliverNone(env, q, s0, steps + [ReaderTurn(DoStore)], s1, id, w);
    steps' := steps + [ReaderTurn(DoStore)] + [ReaderTurn(DoDeliver)];
  }

  lemma DeliverNone(env: Env, q: Setup, s0: State, steps: seq<Step>, s: State, id: nat, w: Option<Waiter>)
    returns (s': State)
    requires Leads(Quiet, env, q, s0, steps, s) && s.run == Reader(Delivering(q.t, w, None)) && w.Some?
    requires w.value.id == id
    requires s.core.pending == [] && id < |s.reqs| && s.reqs[id].pc.Waiting? && s.reqs[id].slot == None
    ensures Leads(Quiet, env, q, s0, steps + [ReaderTurn(DoDeliver)], s')
    ensures s'.passes == s.passes && Reads(q, s') && Accepted(s', id)
  {
    s' := Deliver(s, q.t, w, None);
    ReaderGoes(Quiet, env, q, s0, steps, s, DoDeliver, s');
  }

  /** The request returns and the pass moves on to the next subscription. */
  lemma FinishRequest(env: Env, q: Setup, s0: State, steps: seq<Step>, s: State, i: nat, id: nat)
    returns (steps': seq<Step>, s': State)
    requires Leads(Quiet, env, q, s0, steps, s) && Reads(q, s) && Accepted(s, id)
    requires Mine(q, s.passes).pc == Awaiting(i, id)
    ensures Leads(Quiet, env, q, s0, steps', s') && Between(q, s', i + 1)
  {
    var p := q.generation - 1;
    var s1 := ReceiveVerdict(s, id);
    RequestGoes(Quiet, env, q, s0, steps, s, id, DoReceive, s1);
    var steps1 := steps + [RequestTurn(id, DoReceive)];
    s' := Resume(s1, p, i, false);
    PassGoes(Quiet, env, q, s0, steps1, s1, s');
    steps' := steps1 + [PassTurn(p)];
  }

  lemma RestoreOne(env: Env, q: Setup, s0: State, steps: seq<Step>, s: State, i: nat, text: Bytes)
    returns (steps': seq<Step>, s': State)
    requires Leads(Quiet, env, q, s0, steps, s) && Between(q, s, i) && i < |q.subs| && Accepts(env, q.subs[i].tr, text)
    ensures Leads(Quiet, env, q, s0, steps', s') && Between(q, s', i + 1)
  {
    var id := |s.reqs|;
    var steps1, s1 := IssueRequest(env, q, s0, steps, s, i);
    var steps2, s2 := WriteRequest(env, q, s0, steps1, s1, id);
    var steps3, s3 := ReadAcceptance(env, q, s0, steps2, s2, id, q.subs[i].tr, text);
    steps', s' := FinishRequest(env, q, s0, steps3, s3, i, id);
  }

  /** The last check, and the notification. */
  lemma FinishPass(env: Env, q: Setup, s0: State, steps: seq<Step>, s: State)
    returns (steps': seq<Step>, s': State)
    requires Leads(Quiet, env, q, s0, steps, s) && Between(q, s, |q.subs|)
    ensures Leads(Quiet, env, q, s0, steps', s') && Mine(q, s'.passes).pc == Finished(true)
  {
    var p := q.generation - 1;
    var s1 := Check(s, p, |q.subs|);
    PassGoes(Quiet, env, q, s0, steps, s, s1);
    s' := Notify(s1, p);
    PassGoes(Quiet, env, q, s0, steps + [PassTurn(p)], s1, s');
    steps' := steps + [PassTurn(p)] + [PassTurn(p)];
  }

  /** The remaining subscriptions are restored one after the other. */
  lemma RestoreRest(env: Env, q: Setup, s0: State, steps: seq<Step>, s: State, i: nat, acks: seq<Bytes>)
    returns (steps': seq<Step>, s': State)
    requires Leads(Quiet, env, q, s0, steps, s) && Between(q, s, i) && i <= |q.subs|
    requires |acks| == |q.subs| && forall k :: 0 <= k < |acks| ==> Accepts(env, q.subs[k].tr, acks[k])
    ensures Leads(Quiet, env, q, s0, steps', s') && Mine(q, s'.passes).pc == Finished(true)
    decreases |q.subs| - i
  {
    if i == |q.subs| {
      steps', s' := FinishPass(env, q, s0, steps, s);
    } else {
      var steps1, s1 := RestoreOne(env, q, s0, steps, s, i, acks[i]);
      steps', s' := RestoreRest(env, q, s0, steps1, s1, i + 1, acks);
    }
  }

  /** The pass takes its snapshot and the reader enters its loop. */
  lemma FirstTurns(env: Env, q: Setup, s0: State) returns (steps: seq<Step>, s: State)
    requires QuietInv(q, s0) && s0.run == Reader(Top) && Mine(q, s0.passes).pc.Snapshotting?
    ensures Leads(Quiet, env, q, s0, steps, s) && Between(q, s, 0)
  {
    var p, s1 := q.generation - 1, Snapshot(s0, q.generation - 1);
    s := Enter(s1);
    Go(Quiet, env, q, s0, [], s0, PassTurn(p), s1);
    Go(Quiet, env, q, s0, [] + [PassTurn(p)], s1, ReaderTurn(DoEnter), s);
    steps := [] + [PassTurn(p)] + [ReaderTurn(DoEnter)];
  }

  lemma RestoredAndReported(env: Env, q: Setup, s0: State, steps: seq<Step>, s: State)
    requires QuietInv(q, s0) && Leads(Quiet, env, q, s0, steps, s) && Mine(q, s.passes).pc == Finished(true)
    ensures s.hist.notices == q.notices + [Restored(q.generation, q.attempt, |q.subs|)]
    ensures s.core.subs == q.subs && s.socks[q.t].wire == Frames(q.key, q.subs, true)
  {
    QuietAlways(env, q, s0, steps, s);
    assert q.subs[..|q.subs|] == q.subs;
  }

  /**
   * Such a reconnect is possible for any number of subscriptions: given the server's
   * acceptances, a quiet schedule leads to the success notification and to exactly the frames
   * of the list on the new socket.
   */
  lemma QuietReconnectCompletes(env: Env, s0: State, acks: seq<Bytes>) returns (steps: seq<Step>, s: State)
    requires Resting(s0)
    requires |acks| == |s0.core.subs|
    requires forall k :: 0 <= k < |acks| ==> Accepts(env, s0.core.subs[k].tr, acks[k])
    ensures
      var s1 := InstallStep(s0, s0.run.u.key, s0.run.u.t);
      Run(Quiet, env, s1, steps) && Execute(env, s1, steps) == Some(s)
    ensures s.hist.notices == s0.hist.notices + [Restored(s0.core.generation + 1, s0.attempt, |s0.core.subs|)]
    ensures s.core.subs == s0.core.subs && s0.run.u.t < |s.socks|
    ensures s.socks[s0.run.u.t].wire == Frames(s0.run.u.key, s0.core.subs, true)
  {
    var q, s1 := SetupOf(s0), InstallStep(s0, s0.run.u.key, s0.run.u.t);
    InstallStarts(s0);
    var steps1, s2 := FirstTurns(env, q, s1);
    steps, s := RestoreRest(env, q, s1, steps1, s2, 0, acks);
    RestoredAndReported(env, q, s1, steps, s);
  }
}
