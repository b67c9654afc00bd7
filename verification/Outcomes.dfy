/**
 * How a request fares: what its frame came to, what its return says about the subscription list,
 * and who is to blame for every entry that leaves the list.
 */
module Outcomes {
  import opened Prelude
  import opened Text
  import opened Protocol
  import opened Core
  import opened Machine
  import Waiters
  import Arrivals
  import Keys
  import Subscriptions
  import Pipeline

  predicate Refused(v: Verdict) {
    v.Some? && v.value.SubscribeError?
  }

  /** What each point of a request knows about its frame. */
  predicate Told(r: Request) {
    match r.pc
    case Starting => r.sending.Untried?
    case Writing(socket, _) => r.sending == if socket.None? then NoSocket else Untried
    case Waiting => r.sending.Sent?
    case Forgetting(err, unsent) =>
      if unsent then (r.sending.NoSocket? && err.ConnClosed?) || (r.sending.Unwritten? && err.Broken?)
      else r.sending.Sent? && (err.Cancelled? || err.ConnClosed?)
    case Retracting(err) =>
      r.subscribe && (match r.sending
                      case Untried => false
                      case NoSocket => err.ConnClosed?
                      case Unwritten => err.Broken?
                      case Sent => err.SubscribeError?)
    case Returned(v) => Refused(v) ==> r.sending.Sent?
  }

  /** The request found no socket, could not be written, or was refused. */
  predicate Dropped(r: Request) {
    r.pc.Returned? && (r.sending.NoSocket? || r.sending.Unwritten? || Refused(r.pc.result))
  }

  /** The server has refused a request for tr. */
  predicate RefusalRead(log: seq<Entry>, tr: Bytes) {
    exists k :: 0 <= k < |log| && log[k].AckRead? && !log[k].accepted && log[k].tr == tr
  }

  predicate HoldsRefusal(r: Request) {
    || (r.slot.Some? && Refused(r.slot.value))
    || (r.pc.Retracting? && r.pc.err.SubscribeError?)
    || (r.pc.Returned? && Refused(r.pc.result))
  }

  /**
   * A removal is the work of an unsubscribe that registered, or of a subscribe that found no
   * socket, could not be written, or was refused by an ACK of its own transaction.
   */
  predicate Accountable(reqs: seq<Request>, log: seq<Entry>, op: SubOp)
    requires op.Remove?
  {
    && op.author < |reqs|
    && var r := reqs[op.author];
    && r.sub == op.s && r.registered.Some?
    && (r.subscribe ==> Dropped(r) && (Refused(r.pc.result) ==> RefusalRead(log, op.s.tr)))
  }

  /** The read loop never ends because of a refused subscription. */
  predicate EndsOtherwise(run: RunPc) {
    run.Reader? ==>
      (run.r.Failing? ==> !run.r.err.SubscribeError?) && (run.r.Releasing? ==> !run.r.err.SubscribeError?)
  }

  predicate OutcomeInv(s: State) {
    && EndsOtherwise(s.run)
    && (forall id :: 0 <= id < |s.reqs| ==> Told(s.reqs[id]))
    && (forall id :: 0 <= id < |s.reqs| && HoldsRefusal(s.reqs[id]) ==> RefusalRead(s.hist.log, s.reqs[id].sub.tr))
    && (forall k :: 0 <= k < |s.hist.subOps| && s.hist.subOps[k].Remove? ==>
          Accountable(s.reqs, s.hist.log, s.hist.subOps[k]))
    && (Reset in s.hist.subOps ==> s.core.closed)
  }

  lemma InitHolds(key: Bytes)
    ensures OutcomeInv(Init(key))
  {}

  // ---- what never changes back ----

  predicate Fixed(a: Request, b: Request) {
    && b.sub == a.sub && b.subscribe == a.subscribe
    && (a.registered.Some? ==> b.registered.Some?)
    && (a.pc.Returned? ==> b.pc == a.pc && b.sending == a.sending)
  }

  predicate AllFixed(a: seq<Request>, b: seq<Request>) {
    |a| <= |b| && forall id :: 0 <= id < |a| ==> Fixed(a[id], b[id])
  }

  lemma RefusalStays(log: seq<Entry>, log': seq<Entry>, tr: Bytes)
    requires RefusalRead(log, tr) && log <= log'
    ensures RefusalRead(log', tr)
  {
    var k :| 0 <= k < |log| && log[k].AckRead? && !log[k].accepted && log[k].tr == tr;
    assert log'[k] == log[k];
  }

  lemma AccountableStays(s: State, s': State, op: SubOp)
    requires op.Remove? && Accountable(s.reqs, s.hist.log, op)
    requires AllFixed(s.reqs, s'.reqs) && s.hist.log <= s'.hist.log
    ensures Accountable(s'.reqs, s'.hist.log, op)
  {
    if RefusalRead(s.hist.log, op.s.tr) {
      RefusalStays(s.hist.log, s'.hist.log, op.s.tr);
    }
  }

  /** Of the records only those of requests that hold a refusal newly need an entry in the log. */
  predicate NewRefusalsRead(s: State, s': State) {
    forall id :: 0 <= id < |s'.reqs| && HoldsRefusal(s'.reqs[id]) ==>
      (id < |s.reqs| && HoldsRefusal(s.reqs[id])) || RefusalRead(s'.hist.log, s'.reqs[id].sub.tr)
  }

  lemma RecordsKeep(s: State, s': State)
    requires OutcomeInv(s) && AllFixed(s.reqs, s'.reqs) && s.hist.log <= s'.hist.log && NewRefusalsRead(s, s')
    ensures forall id :: 0 <= id < |s'.reqs| && HoldsRefusal(s'.reqs[id]) ==>
              RefusalRead(s'.hist.log, s'.reqs[id].sub.tr)
    ensures forall k :: 0 <= k < |s.hist.subOps| && s.hist.subOps[k].Remove? ==>
              Accountable(s'.reqs, s'.hist.log, s.hist.subOps[k])
  {
    forall id | 0 <= id < |s'.reqs| && HoldsRefusal(s'.reqs[id]) ensures RefusalRead(s'.hist.log, s'.reqs[id].sub.tr) {
      if id < |s.reqs| && HoldsRefusal(s.reqs[id]) {
        RefusalStays(s.hist.log, s'.hist.log, s.reqs[id].sub.tr);
      }
    }
    forall k | 0 <= k < |s.hist.subOps| && s.hist.subOps[k].Remove?
      ensures Accountable(s'.reqs, s'.hist.log, s.hist.subOps[k])
    {
      AccountableStays(s, s', s.hist.subOps[k]);
    }
  }

  /** A turn that changes no list entry. */
  lemma ListSpared(s: State, s': State)
    requires OutcomeInv(s) && AllFixed(s.reqs, s'.reqs) && s.hist.log <= s'.hist.log && NewRefusalsRead(s, s')
    requires s'.hist.subOps == s.hist.subOps && EndsOtherwise(s'.run) && (s.core.closed ==> s'.core.closed)
    requires forall id :: 0 <= id < |s'.reqs| ==> Told(s'.reqs[id])
    ensures OutcomeInv(s')
  {
    RecordsKeep(s, s');
  }

  // ---- the reader ----

  predicate GivesNoVerdict(r: ReaderPc) {
    !r.Delivering? && (r.Releasing? ==> r.waiters == [])
  }

  lemma ReaderLogs(env: Env, s: State, a: ReaderAct)
    requires ReaderNext(env, s, a).Some? && EndsOtherwise(s.run) && GivesNoVerdict(s.run.r) && !s.run.r.Handling?
    ensures var s' := ReaderNext(env, s, a).value;
      s.hist.log <= s'.hist.log && s'.reqs == s.reqs && EndsOtherwise(s'.run)
  {
    if s.run.r.Storing? {
      assert ReaderNext(env, s, a) == Some(StoreStep(env, s, s.run.r.t, s.run.r.tr, s.run.r.waiter, s.run.r.ack));
    } else {
      assert ReaderNext(env, s, a).value.hist.log == s.hist.log;
    }
  }

  lemma JudgeLogs(env: Env, s: State, t: nat, raw: Pipeline.Raw)
    ensures var s' := Judge(env, s, t, raw);
      s.hist.log <= s'.hist.log && s'.reqs == s.reqs && EndsOtherwise(s'.run)
  {}

  lemma DeliverKeeps(env: Env, s: State, t: nat, w: Option<Waiter>, v: Verdict)
    requires OutcomeInv(s) && Waiters.WaiterInv(s) && Arrivals.ArrivalInv(env, s)
    requires s.run == Reader(Delivering(t, w, v))
    ensures OutcomeInv(Deliver(s, t, w, v))
  {
    var s' := Deliver(s, t, w, v);
    if w.Some? {
      RefusalIsRead(env, s, t, w.value, v);
    }
    ListSpared(s, s');
  }

  /** A refusal about to be delivered is the one just read, for the waiter's own transaction. */
  lemma RefusalIsRead(env: Env, s: State, t: nat, w: Waiter, v: Verdict)
    requires Waiters.WaiterInv(s) && Arrivals.ArrivalInv(env, s) && s.run == Reader(Delivering(t, Some(w), v))
    ensures w.id < |s.reqs| && s.reqs[w.id].sub.tr == w.tr
    ensures Refused(v) ==> RefusalRead(s.hist.log, w.tr)
  {
    assert Waiters.Hand(s.run)[0] == w && Waiters.Unanswered(s.reqs, w);
    var last := |s.hist.log| - 1;
    assert Arrivals.Records(env, s.hist.arrivals[last], s.hist.log[last]);
  }

  lemma ReleaseKeeps(s: State, ws: seq<Waiter>, err: Fault)
    requires OutcomeInv(s) && s.run == Reader(Releasing(ws, err)) && ws != []
    ensures OutcomeInv(Release(s, ws, err))
  {
    ListSpared(s, Release(s, ws, err));
  }

  lemma ReaderKeeps(env: Env, s: State, a: ReaderAct)
    requires OutcomeInv(s) && Waiters.WaiterInv(s) && Arrivals.ArrivalInv(env, s) && ReaderNext(env, s, a).Some?
    ensures OutcomeInv(ReaderNext(env, s, a).value)
  {
    if s.run.r.Handling? {
      JudgeLogs(env, s, s.run.r.t, s.run.r.raw);
      ListSpared(s, Judge(env, s, s.run.r.t, s.run.r.raw));
    } else if s.run.r.Delivering? {
      DeliverKeeps(env, s, s.run.r.t, s.run.r.waiter, s.run.r.verdict);
    } else if s.run.r.Releasing? && s.run.r.waiters != [] {
      ReleaseKeeps(s, s.run.r.waiters, s.run.r.err);
    } else {
      ReaderLogs(env, s, a);
      ListSpared(s, ReaderNext(env, s, a).value);
    }
  }

  // ---- requests ----

  predicate InRange(s: State, id: nat)
    requires id < |s.reqs|
  {
    s.reqs[id].pc.Writing? && s.reqs[id].pc.socket.Some? ==> s.reqs[id].pc.socket.value < |s.socks|
  }

  /** What one step of a request does to its own record. */
  lemma RequestEffect(s: State, id: nat, a: RequestAct)
    requires RequestNext(s, id, a).Some? && Told(s.reqs[id]) && InRange(s, id)
    ensures
      var s' := RequestNext(s, id, a).value;
      && Told(s'.reqs[id]) && Fixed(s.reqs[id], s'.reqs[id])
      && (HoldsRefusal(s'.reqs[id]) ==> HoldsRefusal(s.reqs[id]))
  {
    if a.DoWrite? {
      WriteEffect(s, id, a);
    } else {
      OtherEffect(s, id, a);
    }
  }

  lemma WriteEffect(s: State, id: nat, a: RequestAct)
    requires RequestNext(s, id, a).Some? && Told(s.reqs[id]) && InRange(s, id) && a.DoWrite?
    ensures
      var s' := RequestNext(s, id, a).value;
      && Told(s'.reqs[id]) && Fixed(s.reqs[id], s'.reqs[id])
      && (HoldsRefusal(s'.reqs[id]) ==> HoldsRefusal(s.reqs[id]))
  {}

  lemma OtherEffect(s: State, id: nat, a: RequestAct)
    requires RequestNext(s, id, a).Some? && Told(s.reqs[id]) && !a.DoWrite?
    ensures
      var s' := RequestNext(s, id, a).value;
      && Told(s'.reqs[id]) && Fixed(s.reqs[id], s'.reqs[id])
      && (HoldsRefusal(s'.reqs[id]) ==> HoldsRefusal(s.reqs[id]))
  {
    if a.DoReceive? {
      ReceiveEffect(s, id);
    } else if a.DoForget? {
      ForgetEffect(s, id, s.reqs[id].pc.err, s.reqs[id].pc.unsent);
    }
  }

  lemma ReceiveEffect(s: State, id: nat)
    requires id < |s.reqs| && s.reqs[id].pc.Waiting? && s.reqs[id].slot.Some? && Told(s.reqs[id])
    ensures
      var r := ReceiveVerdict(s, id).reqs[id];
      Told(r) && Fixed(s.reqs[id], r) && (HoldsRefusal(r) ==> HoldsRefusal(s.reqs[id]))
  {}

  lemma ForgetEffect(s: State, id: nat, err: Fault, unsent: bool)
    requires id < |s.reqs| && s.reqs[id].pc == Forgetting(err, unsent) && Told(s.reqs[id])
    ensures
      var r := ForgetSelf(s, id, err, unsent).reqs[id];
      Told(r) && Fixed(s.reqs[id], r) && (HoldsRefusal(r) ==> HoldsRefusal(s.reqs[id]))
  {}

  /** The entry it adds to the list's history, if any. */
  lemma RequestOps(s: State, id: nat, a: RequestAct)
    requires RequestNext(s, id, a).Some? && Told(s.reqs[id])
    ensures
      var s', r := RequestNext(s, id, a).value, s.reqs[id];
      || s'.hist.subOps == s.hist.subOps
      || s'.hist.subOps == s.hist.subOps + [Add(r.sub, id)]
      || (s'.hist.subOps == s.hist.subOps + [Remove(r.sub, id)] && Removed(r, s'.reqs[id]))
  {}

  /** A request's record before and after it takes an entry off the list. */
  predicate Removed(r: Request, r': Request) {
    && r'.sub == r.sub && r'.subscribe == r.subscribe
    && (if r.subscribe then r.pc.Retracting? && Dropped(r') && r'.registered == r.registered
                            && r'.pc.result == Some(r.pc.err)
        else r'.registered.Some?)
  }

  lemma RequestKeeps(s: State, id: nat, a: RequestAct)
    requires OutcomeInv(s) && RequestNext(s, id, a).Some? && InRange(s, id)
    requires s.reqs[id].registered.None? ==> s.reqs[id].pc.Starting? || s.reqs[id].pc.Returned?
    ensures OutcomeInv(RequestNext(s, id, a).value)
  {
    var s' := RequestNext(s, id, a).value;
    RequestEffect(s, id, a);
    RequestOps(s, id, a);
    OpsKeep(s, s', id);
  }

  lemma OpsKeep(s: State, s': State, id: nat)
    requires OutcomeInv(s) && RequestFrame(s, s', id) && Told(s'.reqs[id]) && Fixed(s.reqs[id], s'.reqs[id])
    requires HoldsRefusal(s'.reqs[id]) ==> HoldsRefusal(s.reqs[id])
    requires s.reqs[id].registered.None? ==> s.reqs[id].pc.Starting? || s.reqs[id].pc.Returned?
    requires
      || s'.hist.subOps == s.hist.subOps
      || s'.hist.subOps == s.hist.subOps + [Add(s.reqs[id].sub, id)]
      || (s'.hist.subOps == s.hist.subOps + [Remove(s.reqs[id].sub, id)] && Removed(s.reqs[id], s'.reqs[id]))
    ensures OutcomeInv(s')
  {
    assert forall k :: 0 <= k < |s.reqs| && k != id ==> s'.reqs[k] == s.reqs[k];
    RecordsKeep(s, s');
    if s'.hist.subOps == s.hist.subOps + [Remove(s.reqs[id].sub, id)] {
      var op := Remove(s.reqs[id].sub, id);
      assert s'.hist.subOps[|s.hist.subOps|] == op;
      assert Removed(s.reqs[id], s'.reqs[id]);
      assert Accountable(s'.reqs, s'.hist.log, op);
      forall k | 0 <= k < |s'.hist.subOps| && s'.hist.subOps[k].Remove?
        ensures Accountable(s'.reqs, s'.hist.log, s'.hist.subOps[k])
      {
        assert k == |s.hist.subOps| || s'.hist.subOps[k] == s.hist.subOps[k];
      }
    }
  }

  // ---- the other parties ----

  lemma PassKeeps(s: State, s': State, p: nat)
    requires OutcomeInv(s) && PassFrame(s, s', p)
    ensures OutcomeInv(s')
  {
    assert forall id :: 0 <= id < |s.reqs| ==> s'.reqs[id] == s'.reqs[..|s.reqs|][id];
    ListSpared(s, s');
  }

  lemma CloseOps(s: State, landed: bool)
    requires CloseNext(s, landed).Some?
    ensures
      var s' := CloseNext(s, landed).value;
      s'.hist.subOps == s.hist.subOps || (s'.hist.subOps == s.hist.subOps + [Reset] && s'.core.closed)
  {}

  lemma CloseKeeps(s: State, s': State)
    requires OutcomeInv(s) && CloseFrame(s, s')
    requires s'.hist.subOps == s.hist.subOps || (s'.hist.subOps == s.hist.subOps + [Reset] && s'.core.closed)
    ensures OutcomeInv(s')
  {
    RecordsKeep(s, s');
    forall k | 0 <= k < |s'.hist.subOps| && s'.hist.subOps[k].Remove?
      ensures Accountable(s'.reqs, s'.hist.log, s'.hist.subOps[k])
    {
      assert s'.hist.subOps[k] == s.hist.subOps[k];
    }
  }

  lemma DialKeeps(s: State, a: DialAct)
    requires OutcomeInv(s) && DialNext(s, a).Some?
    ensures OutcomeInv(DialNext(s, a).value)
  {
    DialEnds(s, a);
    ListSpared(s, DialNext(s, a).value);
  }

  lemma DialEnds(s: State, a: DialAct)
    requires DialNext(s, a).Some?
    ensures EndsOtherwise(DialNext(s, a).value.run)
  {}

  lemma StepKeeps(env: Env, s: State, step: Step)
    requires OutcomeInv(s) && Next(env, s, step).Some?
    requires Waiters.WaiterInv(s) && Arrivals.ArrivalInv(env, s) && Keys.RequestsHoldPairs(s) && AllRegistered(s)
    ensures OutcomeInv(Next(env, s, step).value)
  {
    var s' := Next(env, s, step).value;
    match step
    case ReaderTurn(a) => ReaderKeeps(env, s, a);
    case DialTurn(a) => DialKeeps(s, a);
    case RequestTurn(id, a) => RequestKeeps(s, id, a);
    case PassTurn(p) => PassKeeps(s, s', p);
    case CloseTurn(landed) => CloseOps(s, landed); CloseKeeps(s, s');
    case Consume => OutsideKeeps(s, s');
    case Call(_, _) => OutsideKeeps(s, s');
  }

  /** A turn of the consumer, or a new call. */
  lemma OutsideKeeps(s: State, s': State)
    requires OutcomeInv(s) && s.reqs <= s'.reqs
    requires s' == s.(reqs := s'.reqs, consumed := s'.consumed, buffer := s'.buffer)
    requires forall id :: |s.reqs| <= id < |s'.reqs| ==>
               s'.reqs[id] == NewRequest(Caller, s'.reqs[id].subscribe, s'.reqs[id].sub)
    ensures OutcomeInv(s')
  {
    ListSpared(s, s');
  }

  /** A request is unregistered only before it starts, or because it was turned away. */
  predicate AllRegistered(s: State) {
    forall id :: 0 <= id < |s.reqs| && s.reqs[id].registered.None? ==>
      s.reqs[id].pc.Starting? || s.reqs[id].pc.Returned?
  }

  // ---- what follows ----

  /**
   * What the record says of a request's frame is what happened: it found no socket exactly when
   * none was in use at its registration, and it is unwritten only after a write that failed.
   */
  lemma GuardsRecorded(env: Env, s: State, step: Step, s': State, id: nat)
    requires Next(env, s, step) == Some(s') && id < |s'.reqs|
    ensures id >= |s.reqs| ==> s'.reqs[id].sending.Untried?
    ensures step == RequestTurn(id, DoRegister) && id < |s.reqs| && !s.core.closed ==>
              (s'.reqs[id].sending.NoSocket? <==> s.core.transport.None?)
    ensures
      var after := s'.reqs[id].sending;
      id < |s.reqs| && after != s.reqs[id].sending ==>
        && (after.NoSocket? ==> step == RequestTurn(id, DoRegister) && s.core.transport.None?)
        && (after.Unwritten? ==> step.RequestTurn? && step.id == id && step.a.DoWrite? && !step.a.ok)
  {
    match step
    case RequestTurn(k, a) => SendingEffect(s, k, a);
    case _ =>
  }

  lemma SendingEffect(s: State, id: nat, a: RequestAct)
    requires RequestNext(s, id, a).Some?
    ensures
      var before, after := s.reqs[id].sending, RequestNext(s, id, a).value.reqs[id].sending;
      || after == before || after.Sent?
      || (after == Untried && a.DoRegister?)
      || (after == NoSocket && a.DoRegister? && s.core.transport.None?)
      || (after == Unwritten && a.DoWrite? && !a.ok)
    ensures a.DoRegister? && !s.core.closed ==>
              (RequestNext(s, id, a).value.reqs[id].sending.NoSocket? <==> s.core.transport.None?)
  {}


  /** A subscribe request that returns leaves the list as it is unless it was dropped. */
  lemma ReturnEffect(s: State, id: nat, a: RequestAct)
    requires RequestNext(s, id, a).Some? && Told(s.reqs[id]) && InRange(s, id)
    requires RequestNext(s, id, a).value.reqs[id].pc.Returned? && !s.reqs[id].pc.Returned? && s.reqs[id].subscribe
    ensures
      var s' := RequestNext(s, id, a).value;
      if Dropped(s'.reqs[id]) then s.reqs[id].sub !in s'.core.subs else s'.core.subs == s.core.subs
  {
    Subscriptions.RemoveMembers(s.core.subs, s.reqs[id].sub);
  }

  /** Something that was on the list and is not any more has been removed since. */
  lemma {:induction false} LostBy(ops: seq<SubOp>, more: seq<SubOp>, x: Subscription)
    requires x in Subscriptions.Fold(ops) && x !in Subscriptions.Fold(ops + more)
    ensures exists k :: |ops| <= k < |ops + more| && Subscriptions.Removes((ops + more)[k], x)
    decreases |more|
  {
    assert ops + [] == ops;
    var front, last := more[..|more| - 1], more[|more| - 1];
    assert ops + more == ops + front + [last];
    Subscriptions.FoldNext(ops + front, last);
    Subscriptions.ApplyMembers(Subscriptions.Fold(ops + front), last, x);
    if x !in Subscriptions.Fold(ops + front) {
      LostBy(ops, front, x);
      var k :| |ops| <= k < |ops + front| && Subscriptions.Removes((ops + front)[k], x);
      assert (ops + more)[k] == (ops + front)[k];
    } else {
      assert (ops + more)[|ops + front|] == last;
    }
  }
}
