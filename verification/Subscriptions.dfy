/** The subscription list: an ordered set over the whole history, emptied for good by Close. */
module Subscriptions {
  import opened Prelude
  import opened Text
  import opened Protocol
  import opened Core
  import opened Machine

  // ---- the list as a fold, and what the fold means ----

  function Apply(subs: seq<Subscription>, op: SubOp): seq<Subscription> {
    match op
    case Add(s, _) => AddSub(subs, s)
    case Remove(s, _) => RemoveSub(subs, s)
    case Reset => []
  }

  function Fold(ops: seq<SubOp>): seq<Subscription> {
    if ops == [] then [] else Apply(Fold(ops[..|ops| - 1]), ops[|ops| - 1])
  }

  predicate Removes(op: SubOp, s: Subscription) {
    (op.Remove? && op.s == s) || op.Reset?
  }

  predicate Adds(op: SubOp, s: Subscription) {
    op.Add? && op.s == s
  }

  /** Registration i put s on the list, where it has been ever since. */
  predicate Birth(ops: seq<SubOp>, s: Subscription, i: nat) {
    && i < |ops| && Adds(ops[i], s)
    && (forall k :: i < k < |ops| ==> !Removes(ops[k], s))
    && s !in Fold(ops[..i])
  }

  predicate NoDuplicates(subs: seq<Subscription>) {
    forall i, j :: 0 <= i < j < |subs| ==> subs[i] != subs[j]
  }

  /** Entry j of the list was born at registration births[j], and the births are in list order. */
  predicate InBirthOrder(ops: seq<SubOp>, subs: seq<Subscription>, births: seq<nat>) {
    && |births| == |subs|
    && (forall j :: 0 <= j < |subs| ==> Birth(ops, subs[j], births[j]))
    && (forall i, j :: 0 <= i < j < |births| ==> births[i] < births[j])
  }

  /** Removing an entry leaves the others in order: the kept positions increase. */
  lemma {:induction false} RemoveKeepsOrder(ops: seq<SubOp>, subs: seq<Subscription>, births: seq<nat>, s: Subscription)
    returns (kept: seq<nat>)
    requires InBirthOrder(ops, subs, births)
    ensures InBirthOrder(ops, RemoveSub(subs, s), kept)
    ensures forall k :: k in kept ==> k in births
    decreases |subs|
  {
    if subs == [] {
      kept := [];
    } else {
      var n := |subs| - 1;
      kept := RemoveKeepsOrder(ops, subs[..n], births[..n], s);
      if subs[n] != s {
        AppendKeepsOrder(ops, RemoveSub(subs[..n], s), kept, subs[n], births[n]);
        kept := kept + [births[n]];
      }
    }
  }

  lemma AppendKeepsOrder(ops: seq<SubOp>, subs: seq<Subscription>, births: seq<nat>, s: Subscription, b: nat)
    requires InBirthOrder(ops, subs, births) && Birth(ops, s, b) && forall k :: k in births ==> k < b
    ensures InBirthOrder(ops, subs + [s], births + [b])
  {
    assert forall k :: 0 <= k < |births| ==> births[k] in births;
  }

  lemma BirthLater(ops: seq<SubOp>, op: SubOp, s: Subscription, i: nat)
    requires Birth(ops, s, i) && !Removes(op, s)
    ensures Birth(ops + [op], s, i)
  {
    assert (ops + [op])[..i] == ops[..i];
  }

  /** Every later operation leaves the births of what it keeps. */
  lemma OrderLater(ops: seq<SubOp>, op: SubOp, subs: seq<Subscription>, births: seq<nat>)
    requires InBirthOrder(ops, subs, births) && forall s :: s in subs ==> !Removes(op, s)
    ensures InBirthOrder(ops + [op], subs, births)
  {
    forall j | 0 <= j < |subs| ensures Birth(ops + [op], subs[j], births[j]) {
      BirthLater(ops, op, subs[j], births[j]);
    }
  }

  lemma AddKeepsOrder(ops: seq<SubOp>, s: Subscription, author: nat, births: seq<nat>) returns (more: seq<nat>)
    requires InBirthOrder(ops, Fold(ops), births)
    ensures InBirthOrder(ops + [Add(s, author)], AddSub(Fold(ops), s), more)
  {
    OrderLater(ops, Add(s, author), Fold(ops), births);
    if s in Fold(ops) {
      more := births;
    } else {
      more := births + [|ops|];
      assert (ops + [Add(s, author)])[..|ops|] == ops;
      assert Birth(ops + [Add(s, author)], s, |ops|);
    }
  }

  /** The list is in original subscribe order: each entry counts from its earliest unbroken registration. */
  lemma {:induction false} FoldInBirthOrder(ops: seq<SubOp>) returns (births: seq<nat>)
    ensures InBirthOrder(ops, Fold(ops), births)
    decreases |ops|
  {
    if ops == [] {
      births := [];
    } else {
      var front, op := ops[..|ops| - 1], ops[|ops| - 1];
      assert ops == front + [op];
      var before := FoldInBirthOrder(front);
      match op
      case Add(s, author) => births := AddKeepsOrder(front, s, author, before);
      case Remove(s, _) =>
        births := RemoveKeepsOrder(front, Fold(front), before, s);
        RemoveMembers(Fold(front), s);
        OrderLater(front, op, RemoveSub(Fold(front), s), births);
      case Reset => births := [];
    }
  }

  /** Registration i of s has not been undone since. */
  predicate Unbroken(ops: seq<SubOp>, s: Subscription, i: nat) {
    i < |ops| && Adds(ops[i], s) && forall k :: i < k < |ops| ==> !Removes(ops[k], s)
  }

  /** An entry is on the list exactly when its last registration has not been undone since. */
  lemma {:induction false} FoldMembers(ops: seq<SubOp>, s: Subscription)
    ensures s in Fold(ops) <==> exists i: nat :: Unbroken(ops, s, i)
    decreases |ops|
  {
    if ops != [] {
      var n := |ops| - 1;
      var front := ops[..n];
      assert ops == front + [ops[n]];
      FoldMembers(front, s);
      ApplyMembers(Fold(front), ops[n], s);
      UnbrokenNext(front, ops[n], s);
    }
  }

  lemma ApplyMembers(subs: seq<Subscription>, op: SubOp, s: Subscription)
    ensures s in Apply(subs, op) <==> Adds(op, s) || (s in subs && !Removes(op, s))
  {
    if op.Remove? {
      RemoveMembers(subs, op.s);
    }
  }

  lemma UnbrokenNext(ops: seq<SubOp>, op: SubOp, s: Subscription)
    ensures (exists i: nat :: Unbroken(ops + [op], s, i)) <==>
              Adds(op, s) || (!Removes(op, s) && exists i: nat :: Unbroken(ops, s, i))
  {
    var more := ops + [op];
    if Adds(op, s) {
      assert Unbroken(more, s, |ops|);
    } else {
      forall i: nat ensures Unbroken(more, s, i) <==> !Removes(op, s) && Unbroken(ops, s, i) {
        assert more[|ops|] == op;
        assert forall k :: i < k < |ops| ==> more[k] == ops[k];
      }
    }
  }

  lemma {:induction false} RemoveMembers(subs: seq<Subscription>, s: Subscription)
    ensures forall x :: x in RemoveSub(subs, s) <==> x in subs && x != s
    decreases |subs|
  {
    if subs != [] {
      var n := |subs| - 1;
      RemoveMembers(subs[..n], s);
      assert subs == subs[..n] + [subs[n]];
    }
  }

  lemma OrderDistinct(ops: seq<SubOp>, subs: seq<Subscription>, births: seq<nat>)
    requires InBirthOrder(ops, subs, births)
    ensures NoDuplicates(subs)
  {
    forall i, j | 0 <= i < j < |subs| ensures subs[i] != subs[j] {
      assert Birth(ops, subs[i], births[i]) && Birth(ops, subs[j], births[j]);
      assert Adds(ops[births[i]], subs[i]) && Adds(ops[births[j]], subs[j]);
      if subs[i] == subs[j] {
        var early := ops[..births[j]];
        assert Adds(early[births[i]], subs[j]);
        assert forall k :: births[i] < k < |early| ==> !Removes(early[k], subs[j]);
        assert Unbroken(early, subs[j], births[i]);
        FoldMembers(early, subs[j]);
      }
    }
  }

  // ---- the invariant ----

  function Frames(approval: Bytes, subs: seq<Subscription>, subscribe: bool): (fs: seq<WireFrame>)
    ensures |fs| == |subs|
    ensures forall i :: 0 <= i < |fs| ==> fs[i] == WireFrame(approval, subscribe, subs[i].tr, subs[i].key)
  {
    seq(|subs|, i requires 0 <= i < |subs| => WireFrame(approval, subscribe, subs[i].tr, subs[i].key))
  }

  /** Close has written, or tried to write, one unsubscribe for each of the first i entries. */
  predicate SentUpTo(f: Farewell, i: nat) {
    i <= |f.active| && f.sent == Frames(f.approval, f.active[..i], false)
  }

  predicate FarewellOk(closer: CloserPc, f: Farewell) {
    match closer
    case Idle => true
    case Unsubscribing(socket, approval, active, i) =>
      socket == f.socket && approval == f.approval && active == f.active && SentUpTo(f, i)
    case _ => f.socket.Some? ==> SentUpTo(f, |f.active|)
  }

  /** The list was reset once, at entry k; before that it held `active`, and nothing registers afterwards. */
  predicate ResetAt(ops: seq<SubOp>, active: seq<Subscription>, k: nat) {
    k < |ops| && ops[k] == Reset && Fold(ops[..k]) == active && forall j :: k < j < |ops| ==> ops[j].Remove?
  }

  ghost predicate SubInv(s: State) {
    && s.core.subs == Fold(s.hist.subOps)
    && (s.core.closed <==> !s.closer.Idle?)
    && (s.core.closed ==> s.core.subs == [] && exists k: nat :: ResetAt(s.hist.subOps, s.hist.farewell.active, k))
    && FarewellOk(s.closer, s.hist.farewell)
    && (s.closer.Unsubscribing? && s.closer.socket.Some? ==> s.closer.socket.value < |s.socks|)
  }

  lemma InitHolds(key: Bytes)
    ensures SubInv(Init(key))
  {}

  lemma FoldNext(ops: seq<SubOp>, op: SubOp)
    ensures Fold(ops + [op]) == Apply(Fold(ops), op)
  {
    assert (ops + [op])[..|ops|] == ops;
  }

  lemma ResetStays(ops: seq<SubOp>, active: seq<Subscription>, k: nat, op: SubOp)
    requires ResetAt(ops, active, k) && op.Remove?
    ensures ResetAt(ops + [op], active, k)
  {
    assert (ops + [op])[..k] == ops[..k];
  }

  /** What a request does to the list it records; once closed it can only remove. */
  ghost predicate ListMoves(s: State, s': State) {
    || (s'.core.subs == s.core.subs && s'.hist.subOps == s.hist.subOps)
    || (exists op :: s'.hist.subOps == s.hist.subOps + [op] && s'.core.subs == Apply(s.core.subs, op)
          && (s.core.closed ==> op.Remove?))
  }

  lemma RequestEffect(s: State, id: nat, a: RequestAct)
    requires RequestNext(s, id, a).Some?
    ensures ListMoves(s, RequestNext(s, id, a).value)
  {
    var s', r := RequestNext(s, id, a).value, s.reqs[id];
    if a.DoRegister? && !s.core.closed {
      var op := if r.subscribe then Add(r.sub, id) else Remove(r.sub, id);
      assert s'.hist.subOps == s.hist.subOps + [op];
    } else if a.DoRetract? {
      assert s'.hist.subOps == s.hist.subOps + [Remove(r.sub, id)];
    }
  }

  lemma RequestKeeps(s: State, s': State, id: nat)
    requires SubInv(s) && RequestFrame(s, s', id) && ListMoves(s, s')
    ensures SubInv(s')
  {
    if s'.hist.subOps != s.hist.subOps {
      var op :| s'.hist.subOps == s.hist.subOps + [op] && s'.core.subs == Apply(s.core.subs, op)
        && (s.core.closed ==> op.Remove?);
      FoldNext(s.hist.subOps, op);
      if s.core.closed {
        var k: nat :| ResetAt(s.hist.subOps, s.hist.farewell.active, k);
        ResetStays(s.hist.subOps, s.hist.farewell.active, k, op);
      }
    }
  }

  /** The other parties leave the list alone. */
  lemma OthersKeep(s: State, s': State)
    requires SubInv(s) && Spared(s, s')
    ensures SubInv(s')
  {}

  lemma BeginKeeps(s: State)
    requires SubInv(s) && s.closer.Idle? && (s.core.transport.Some? ==> s.core.transport.value < |s.socks|)
    ensures SubInv(BeginCloseStep(s))
  {
    var s' := BeginCloseStep(s);
    FoldNext(s.hist.subOps, Reset);
    assert s'.hist.subOps[..|s.hist.subOps|] == s.hist.subOps;
    assert ResetAt(s'.hist.subOps, s'.hist.farewell.active, |s.hist.subOps|);
  }

  lemma UnsubscribeKeeps(s: State, t: nat, approval: Bytes, active: seq<Subscription>, i: nat, landed: bool)
    requires SubInv(s) && s.closer == Unsubscribing(Some(t), approval, active, i) && i < |active|
    ensures SubInv(UnsubscribeStep(s, t, approval, active, i, landed))
  {
    assert active[..i + 1] == active[..i] + [active[i]];
  }

  lemma FinishKeeps(s: State, s': State)
    requires SubInv(s) && CloseFrame(s, s') && !s.closer.Idle? && s'.core == s.core
    requires !s'.closer.Idle? && !s'.closer.Unsubscribing?
    requires s'.hist.subOps == s.hist.subOps && s'.hist.farewell == s.hist.farewell
    requires s.closer.Unsubscribing? && s.closer.socket.Some? ==> s.closer.i >= |s.closer.active|
    ensures SubInv(s')
  {}

  lemma CloseKeeps(s: State, landed: bool)
    requires SubInv(s) && CloseNext(s, landed).Some?
    requires s.core.transport.Some? ==> s.core.transport.value < |s.socks|
    ensures SubInv(CloseNext(s, landed).value)
  {
    match s.closer
    case Idle => BeginKeeps(s);
    case Unsubscribing(socket, approval, active, i) =>
      if socket.Some? && i < |active| {
        UnsubscribeKeeps(s, socket.value, approval, active, i, landed);
      } else {
        FinishKeeps(s, CloserTo(s, Signalling(socket)));
      }
    case Signalling(socket) => FinishKeeps(s, SignalDone(s, socket));
    case ClosingSocket(socket) => FinishKeeps(s, CloseSocket(s, socket));
    case AwaitingStop(socket) => FinishKeeps(s, CloserTo(s, CloseReturned(socket)));
    case CloseReturned(_) =>
  }

  lemma StepKeeps(env: Env, s: State, step: Step)
    requires SubInv(s) && Next(env, s, step).Some?
    requires s.core.transport.Some? ==> s.core.transport.value < |s.socks|
    ensures SubInv(Next(env, s, step).value)
  {
    var s' := Next(env, s, step).value;
    match step
    case RequestTurn(id, a) => RequestEffect(s, id, a); RequestKeeps(s, s', id);
    case CloseTurn(landed) => CloseKeeps(s, landed);
    case _ => StepSpares(env, s, step, s'); OthersKeep(s, s');
  }

  predicate Spared(s: State, s': State) {
    && s'.core.subs == s.core.subs && s'.core.closed == s.core.closed
    && s'.hist.subOps == s.hist.subOps && s'.hist.farewell == s.hist.farewell
    && s'.closer == s.closer && |s'.socks| >= |s.socks|
  }

  lemma StepSpares(env: Env, s: State, step: Step, s': State)
    requires Next(env, s, step) == Some(s') && !step.RequestTurn? && !step.CloseTurn?
    ensures Spared(s, s')
  {
    if step.DialTurn? {
      DialSockets(s, step.d);
    }
  }

  lemma DialSockets(s: State, a: DialAct)
    requires DialNext(s, a).Some?
    ensures |DialNext(s, a).value.socks| >= |s.socks|
  {}
}
