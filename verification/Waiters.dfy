/**
 * No lost and no double wakeup: the waiters in `pending`, those the reader holds in its hand,
 * and the verdicts already on a channel account for every outstanding request.
 */
module Waiters {
  import opened Prelude
  import opened Text
  import opened Protocol
  import opened Core
  import opened Machine

  /** The waiters `run` has taken out of `pending` and not resolved yet. */
  function Hand(run: RunPc): seq<Waiter> {
    if !run.Reader? then [] else
      match run.r
      case Clearing(_, _, Some(w), _) => [w]
      case Storing(_, _, Some(w), _) => [w]
      case Delivering(_, Some(w), _) => [w]
      case Releasing(ws, _) => ws
      case _ => []
  }

  predicate Distinct(ws: seq<Waiter>) {
    forall i, j :: 0 <= i < j < |ws| ==> ws[i].id != ws[j].id
  }

  predicate Apart(a: seq<Waiter>, b: seq<Waiter>) {
    forall i, j :: 0 <= i < |a| && 0 <= j < |b| ==> a[i].id != b[j].id
  }

  /** A listed waiter belongs to a registered request that has no verdict yet. */
  predicate Unanswered(reqs: seq<Request>, w: Waiter) {
    w.id < |reqs| && reqs[w.id].registered.Some? && reqs[w.id].slot.None? && reqs[w.id].resolved == 0
      && reqs[w.id].sub.tr == w.tr
  }

  predicate AllUnanswered(reqs: seq<Request>, ws: seq<Waiter>) {
    forall i :: 0 <= i < |ws| ==> Unanswered(reqs, ws[i])
  }

  predicate HasId(ws: seq<Waiter>, id: nat) {
    exists i :: 0 <= i < |ws| && ws[i].id == id
  }

  predicate Outstanding(pc: RequestPc) {
    pc.Writing? || pc.Waiting?
  }

  predicate Over(pc: RequestPc) {
    pc.Retracting? || pc.Returned?
  }

  /** What the lists and the channel say about one request. */
  predicate Accounted(pending: seq<Waiter>, hand: seq<Waiter>, id: nat, r: Request) {
    && (r.pc.Starting? ==> r.registered.None? && r.slot.None? && r.resolved == 0)
    && r.resolved <= 1
    && (r.slot.Some? ==> r.resolved == 1)
    && (Outstanding(r.pc) ==> r.slot.Some? || HasId(pending, id) || HasId(hand, id))
    && (Over(r.pc) ==> !HasId(pending, id))
  }

  predicate PoolInv(pending: seq<Waiter>, hand: seq<Waiter>, reqs: seq<Request>) {
    && Distinct(pending) && Distinct(hand) && Apart(pending, hand)
    && AllUnanswered(reqs, pending) && AllUnanswered(reqs, hand)
    && (forall id :: 0 <= id < |reqs| ==> Accounted(pending, hand, id, reqs[id]))
  }

  predicate WaiterInv(s: State) {
    PoolInv(s.core.pending, Hand(s.run), s.reqs)
  }

  // ---- the pool operations ----

  lemma DeleteIds(ws: seq<Waiter>, i: nat, id: nat)
    requires i < |ws| && Distinct(ws)
    ensures HasId(Delete(ws, i), id) <==> HasId(ws, id) && id != ws[i].id
  {
    var d := Delete(ws, i);
    if k :| 0 <= k < |ws| && ws[k].id == id && id != ws[i].id {
      assert d[if k < i then k else k - 1].id == id;
    }
    if k :| 0 <= k < |d| && d[k].id == id {
      assert ws[if k < i then k else k + 1].id == id;
    }
  }

  /** The reader takes one waiter in its hand. */
  lemma TakeKeeps(pending: seq<Waiter>, i: nat, reqs: seq<Request>)
    requires PoolInv(pending, [], reqs) && i < |pending|
    ensures PoolInv(Delete(pending, i), [pending[i]], reqs)
  {
    var d, h := Delete(pending, i), [pending[i]];
    assert h[0] == pending[i];
    forall id | 0 <= id < |reqs| ensures Accounted(d, h, id, reqs[id]) {
      assert Accounted(pending, [], id, reqs[id]);
      DeleteIds(pending, i, id);
    }
  }

  /** The reader takes them all. */
  lemma TakeAllKeeps(pending: seq<Waiter>, reqs: seq<Request>)
    requires PoolInv(pending, [], reqs)
    ensures PoolInv([], pending, reqs)
  {
    forall id | 0 <= id < |reqs| ensures Accounted([], pending, id, reqs[id]) {
      assert Accounted(pending, [], id, reqs[id]);
    }
  }

  lemma TailIds(ws: seq<Waiter>, id: nat)
    requires ws != [] && Distinct(ws)
    ensures HasId(ws[1..], id) <==> HasId(ws, id) && id != ws[0].id
  {
    assert ws[1..] == Delete(ws, 0);
    DeleteIds(ws, 0, id);
  }

  /** The reader resolves the first waiter in its hand: the channel was empty and now is full. */
  lemma ResolveKeeps(pending: seq<Waiter>, hand: seq<Waiter>, reqs: seq<Request>, v: Verdict)
    requires PoolInv(pending, hand, reqs) && hand != []
    ensures PoolInv(pending, hand[1..], Resolve(reqs, hand[0].id, v))
    ensures Resolve(reqs, hand[0].id, v)[hand[0].id].slot == Some(v)
  {
    var w, reqs' := hand[0], Resolve(reqs, hand[0].id, v);
    assert Unanswered(reqs, w);
    forall id | 0 <= id < |reqs| ensures Accounted(pending, hand[1..], id, reqs'[id]) {
      assert Accounted(pending, hand, id, reqs[id]);
      TailIds(hand, id);
    }
    assert AllUnanswered(reqs', pending);
  }

  lemma AppendIds(ws: seq<Waiter>, w: Waiter, id: nat)
    ensures HasId(ws + [w], id) <==> HasId(ws, id) || id == w.id
  {
    assert (ws + [w])[|ws|] == w;
    if k :| 0 <= k < |ws| && ws[k].id == id {
      assert (ws + [w])[k].id == id;
    }
  }

  /** A request registers itself. */
  lemma RegisterKeeps(pending: seq<Waiter>, hand: seq<Waiter>, reqs: seq<Request>, id: nat, r: Request)
    requires PoolInv(pending, hand, reqs) && id < |reqs| && reqs[id].pc.Starting?
    requires r.pc.Writing? && r.registered.Some? && r.slot.None? && r.resolved == 0 && r.sub == reqs[id].sub
    ensures PoolInv(pending + [Waiter(id, r.sub.tr)], hand, reqs[id := r])
  {
    var w, reqs' := Waiter(id, r.sub.tr), reqs[id := r];
    assert Accounted(pending, hand, id, reqs[id]);
    forall k | 0 <= k < |reqs| ensures Accounted(pending + [w], hand, k, reqs'[k]) {
      assert Accounted(pending, hand, k, reqs[k]);
      AppendIds(pending, w, k);
    }
    assert forall i :: 0 <= i < |pending| ==> Unanswered(reqs, pending[i]) && pending[i].id != id;
    assert forall i :: 0 <= i < |hand| ==> Unanswered(reqs, hand[i]) && hand[i].id != id;
  }

  lemma RemovedIds(pending: seq<Waiter>, id: nat, k: nat)
    requires Distinct(pending)
    ensures HasId(RemoveId(pending, id), k) <==> HasId(pending, k) && k != id
    ensures Distinct(RemoveId(pending, id))
    ensures forall i :: 0 <= i < |RemoveId(pending, id)| ==> RemoveId(pending, id)[i] in pending
  {
    var i := FirstId(pending, id);
    if i < |pending| {
      DeleteIds(pending, i, k);
    }
  }

  /** A request that gives up forgets its waiter; the reader may still hold it. */
  lemma ForgetKeeps(pending: seq<Waiter>, hand: seq<Waiter>, reqs: seq<Request>, id: nat, r: Request)
    requires PoolInv(pending, hand, reqs) && id < |reqs| && reqs[id].pc.Forgetting? && Over(r.pc)
    requires r == reqs[id].(pc := r.pc)
    ensures PoolInv(RemoveId(pending, id), hand, reqs[id := r])
  {
    var pending', reqs' := RemoveId(pending, id), reqs[id := r];
    forall k | 0 <= k < |reqs| ensures Accounted(pending', hand, k, reqs'[k]) {
      assert Accounted(pending, hand, k, reqs[k]);
      RemovedIds(pending, id, k);
    }
    RemovedIds(pending, id, id);
    forall i, j | 0 <= i < |pending'| && 0 <= j < |hand| ensures pending'[i].id != hand[j].id {
      var k :| 0 <= k < |pending| && pending[k] == pending'[i];
    }
  }

  /** A change to one record that touches no list. */
  lemma RecordKeeps(pending: seq<Waiter>, hand: seq<Waiter>, reqs: seq<Request>, id: nat, r: Request)
    requires PoolInv(pending, hand, reqs) && id < |reqs|
    requires RecordOnly(reqs[id], r)
    ensures PoolInv(pending, hand, reqs[id := r])
  {
    var reqs' := reqs[id := r];
    assert Accounted(pending, hand, id, reqs[id]);
    assert HasId(pending, id) ==> reqs[id].slot.None? && reqs[id].registered.Some?;
    forall k | 0 <= k < |reqs| ensures Accounted(pending, hand, k, reqs'[k]) {
      assert Accounted(pending, hand, k, reqs[k]);
    }
  }

  /** A new request is in no list. */
  lemma NewRequestKeeps(pending: seq<Waiter>, hand: seq<Waiter>, reqs: seq<Request>, r: Request)
    requires PoolInv(pending, hand, reqs)
    requires r.pc.Starting? && r.registered.None? && r.slot.None? && r.resolved == 0
    ensures PoolInv(pending, hand, reqs + [r])
  {
    forall k | 0 <= k < |reqs| + 1 ensures Accounted(pending, hand, k, (reqs + [r])[k]) {
      if k < |reqs| {
        assert Accounted(pending, hand, k, reqs[k]);
      }
    }
  }

  // ---- every step ----

  lemma InitHolds(key: Bytes)
    ensures WaiterInv(Init(key))
  {}

  lemma TakeAckKeeps(env: Env, s: State, t: nat, ack: AckMessage)
    requires WaiterInv(s) && s.run == Reader(Handling(t, Pipeline.Ack(ack)))
    ensures WaiterInv(TakeAck(env, s, t, ack))
  {
    var i, s' := FirstMatch(s.core.pending, ack.tr), TakeAck(env, s, t, ack);
    if i < |s.core.pending| {
      TakeKeeps(s.core.pending, i, s.reqs);
      assert Hand(s'.run) == [s.core.pending[i]];
    }
  }

  lemma JudgeMovesNothing(env: Env, s: State, t: nat, raw: Pipeline.Raw)
    requires s.run == Reader(Handling(t, raw)) && !raw.Ack?
    ensures var s' := Judge(env, s, t, raw);
      s'.core.pending == s.core.pending && s'.reqs == s.reqs && Hand(s'.run) == [] && Hand(s.run) == []
  {}

  lemma JudgeKeeps(env: Env, s: State, t: nat, raw: Pipeline.Raw)
    requires WaiterInv(s) && s.run == Reader(Handling(t, raw))
    ensures WaiterInv(Judge(env, s, t, raw))
  {
    if raw.Ack? {
      TakeAckKeeps(env, s, t, raw.ack);
    } else {
      JudgeMovesNothing(env, s, t, raw);
    }
  }

  lemma DeliverKeeps(s: State, t: nat, w: Option<Waiter>, v: Verdict)
    requires WaiterInv(s) && s.run == Reader(Delivering(t, w, v))
    ensures WaiterInv(Deliver(s, t, w, v))
  {
    if w.Some? {
      var hand := [w.value];
      assert Hand(s.run) == hand;
      ResolveKeeps(s.core.pending, hand, s.reqs, v);
      assert hand[1..] == Hand(Deliver(s, t, w, v).run);
    }
  }

  lemma ReleaseKeeps(s: State, ws: seq<Waiter>, err: Fault)
    requires WaiterInv(s) && s.run == Reader(Releasing(ws, err)) && ws != []
    ensures WaiterInv(Release(s, ws, err))
  {
    ResolveKeeps(s.core.pending, ws, s.reqs, Some(err));
  }

  lemma FailAllKeeps(s: State, err: Fault)
    requires WaiterInv(s) && s.run == Reader(Failing(err))
    ensures WaiterInv(FailAll(s, err))
  {
    TakeAllKeeps(s.core.pending, s.reqs);
  }

  /** Points of the reader that move no waiter. */
  predicate Idling(r: ReaderPc) {
    !r.Handling? && !r.Delivering? && !r.Failing? && (r.Releasing? ==> r.waiters == [])
  }

  predicate Carrying(r: ReaderPc) {
    r.Clearing? || r.Storing?
  }

  lemma CarryingMovesNothing(env: Env, s: State, a: ReaderAct)
    requires ReaderNext(env, s, a).Some? && Carrying(s.run.r)
    ensures var s' := ReaderNext(env, s, a).value;
      s'.core.pending == s.core.pending && s'.reqs == s.reqs && Hand(s'.run) == Hand(s.run)
  {
    match s.run.r
    case Clearing(t, tr, w, ack) => assert ReaderNext(env, s, a).value == ForgetRejection(s, t, tr, w, ack);
    case Storing(t, tr, w, ack) => assert ReaderNext(env, s, a).value == StoreStep(env, s, t, tr, w, ack);
  }

  lemma IdlingMovesNothing(env: Env, s: State, a: ReaderAct)
    requires ReaderNext(env, s, a).Some? && Idling(s.run.r) && !Carrying(s.run.r)
    ensures var s' := ReaderNext(env, s, a).value;
      s'.core.pending == s.core.pending && s'.reqs == s.reqs && Hand(s'.run) == [] && Hand(s.run) == []
  {
    IdlingHoldsNothing(env, s, a);
  }

  lemma IdlingHoldsNothing(env: Env, s: State, a: ReaderAct)
    requires ReaderNext(env, s, a).Some? && Idling(s.run.r) && !Carrying(s.run.r)
    ensures Hand(ReaderNext(env, s, a).value.run) == [] && Hand(s.run) == []
  {}

  lemma ReaderKeeps(env: Env, s: State, a: ReaderAct)
    requires WaiterInv(s) && ReaderNext(env, s, a).Some?
    ensures WaiterInv(ReaderNext(env, s, a).value)
  {
    if Carrying(s.run.r) {
      CarryingMovesNothing(env, s, a);
    } else if Idling(s.run.r) {
      IdlingMovesNothing(env, s, a);
    } else {
      match s.run.r
      case Handling(t, raw) => JudgeKeeps(env, s, t, raw);
      case Delivering(t, w, v) => DeliverKeeps(s, t, w, v);
      case Failing(err) => FailAllKeeps(s, err);
      case Releasing(ws, err) => ReleaseKeeps(s, ws, err);
    }
  }

  lemma DialKeeps(s: State, a: DialAct)
    requires WaiterInv(s) && DialNext(s, a).Some?
    ensures WaiterInv(DialNext(s, a).value)
  {
    assert Hand(DialNext(s, a).value.run) == [];
  }

  lemma RequestKeeps(s: State, id: nat, a: RequestAct)
    requires WaiterInv(s) && RequestNext(s, id, a).Some?
    ensures WaiterInv(RequestNext(s, id, a).value)
  {
    if a.DoRegister? && !s.core.closed {
      RegisterKeeps(s.core.pending, Hand(s.run), s.reqs, id, RegisterStep(s, id).reqs[id]);
    } else if a.DoForget? {
      ForgetStepKeeps(s, id, s.reqs[id].pc.err, s.reqs[id].pc.unsent);
    } else {
      RecordStepKeeps(s, id, a);
    }
  }

  lemma ForgetStepKeeps(s: State, id: nat, err: Fault, unsent: bool)
    requires WaiterInv(s) && id < |s.reqs| && s.reqs[id].pc == Forgetting(err, unsent)
    ensures WaiterInv(ForgetSelf(s, id, err, unsent))
  {
    ForgetKeeps(s.core.pending, Hand(s.run), s.reqs, id, ForgetSelf(s, id, err, unsent).reqs[id]);
  }

  predicate RecordOnly(before: Request, after: Request) {
    && after == before.(pc := after.pc, slot := after.slot, sending := after.sending)
    && (after.slot == before.slot || (before.slot.Some? && after.slot.None?))
    && !after.pc.Starting?
    && (Outstanding(after.pc) ==> Outstanding(before.pc) && after.slot == before.slot)
    && (Over(after.pc) ==> Over(before.pc) || before.slot.Some? || before.pc.Starting?)
  }

  lemma WriteChanges(s: State, id: nat, a: RequestAct)
    requires RequestNext(s, id, a).Some? && a.DoWrite?
    ensures var s' := RequestNext(s, id, a).value;
      s'.core.pending == s.core.pending && RecordOnly(s.reqs[id], s'.reqs[id])
  {}

  lemma OtherChanges(s: State, id: nat, a: RequestAct)
    requires RequestNext(s, id, a).Some? && !a.DoForget? && !a.DoWrite? && (a.DoRegister? ==> s.core.closed)
    ensures var s' := RequestNext(s, id, a).value;
      s'.core.pending == s.core.pending && RecordOnly(s.reqs[id], s'.reqs[id])
  {}

  lemma RecordStepKeeps(s: State, id: nat, a: RequestAct)
    requires WaiterInv(s) && RequestNext(s, id, a).Some? && !a.DoForget? && (a.DoRegister? ==> s.core.closed)
    ensures WaiterInv(RequestNext(s, id, a).value)
  {
    if a.DoWrite? {
      WriteChanges(s, id, a);
    } else {
      OtherChanges(s, id, a);
    }
    RecordKeeps(s.core.pending, Hand(s.run), s.reqs, id, RequestNext(s, id, a).value.reqs[id]);
  }

  lemma PassKeeps(s: State, s': State, p: nat)
    requires WaiterInv(s) && PassFrame(s, s', p)
    ensures WaiterInv(s')
  {
    if s'.reqs != s.reqs {
      NewRequestKeeps(s.core.pending, Hand(s.run), s.reqs, s'.reqs[|s.reqs|]);
      assert s'.reqs == s.reqs + [s'.reqs[|s.reqs|]];
    }
  }

  lemma StepKeeps(env: Env, s: State, step: Step)
    requires WaiterInv(s) && Next(env, s, step).Some?
    ensures WaiterInv(Next(env, s, step).value)
  {
    match step
    case ReaderTurn(a) => ReaderKeeps(env, s, a);
    case DialTurn(a) => DialKeeps(s, a);
    case RequestTurn(id, a) => RequestKeeps(s, id, a);
    case PassTurn(p) => PassKeeps(s, Next(env, s, step).value, p);
    case CloseTurn(_) =>
    case Consume =>
    case Call(subscribe, sub) =>
      NewRequestKeeps(s.core.pending, Hand(s.run), s.reqs, NewRequest(Caller, subscribe, sub));
  }
}
