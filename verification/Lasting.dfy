/**
 * When an unsubscribe lasts. It takes an entry off the list for good exactly if nobody is on the
 * way to put it back: no subscribe request for it that has not registered, and no pass that has
 * still to restore it.
 */
module Lasting {
  import opened Prelude
  import opened Text
  import opened Core
  import opened Machine
  import opened Safety
  import Passes
  import Subscriptions

  // ---- who is on the way ----

  predicate Pending(r: Request, x: Subscription) {
    r.pc.Starting? && r.subscribe && r.sub == x
  }

  predicate From(snapshot: seq<Subscription>, i: nat, x: Subscription) {
    exists k :: i <= k < |snapshot| && snapshot[k] == x
  }

  /** The pass has still to issue a request for x, and will come to it unless its generation passes first. */
  predicate Holds(pass: Pass, generation: nat, x: Subscription) {
    match pass.pc
    case Snapshotting => false
    case Checking(i) => pass.generation == generation && From(pass.snapshot, i, x)
    case Issuing(i) =>
      (i < |pass.snapshot| && pass.snapshot[i] == x) || (pass.generation == generation && From(pass.snapshot, i + 1, x))
    case Awaiting(i, _) => pass.generation == generation && From(pass.snapshot, i + 1, x)
    case Rechecking(i) => pass.generation == generation && From(pass.snapshot, i + 1, x)
    case Notifying => false
    case Finished(_) => false
  }

  /** Nobody is on the way. */
  predicate Free(s: State, x: Subscription) {
    && (forall id :: 0 <= id < |s.reqs| ==> !Pending(s.reqs[id], x))
    && (forall p :: 0 <= p < |s.passes| ==> !Holds(s.passes[p], s.core.generation, x))
  }

  /** x is off the list, and the connection is closed or nobody is on the way. */
  predicate Gone(s: State, x: Subscription) {
    x !in s.core.subs && (s.core.closed || Free(s, x))
  }

  // ---- it lasts ----

  predicate NoneStarts(a: seq<Request>, b: seq<Request>, x: Subscription) {
    forall id :: 0 <= id < |b| && Pending(b[id], x) ==> id < |a| && Pending(a[id], x)
  }

  lemma ReaderKeeps(s: State, s': State, x: Subscription)
    requires Gone(s, x) && ReaderFrame(s, s')
    ensures Gone(s', x)
  {
    assert NoneStarts(s.reqs, s'.reqs, x);
  }

  /** An installation makes the passes that hold x stale, and starts one that holds nothing. */
  lemma InstallKeeps(s: State, key: Bytes, t: nat, x: Subscription)
    requires Gone(s, x) && Passes.PassInv(s) && t < |s.socks|
    ensures Gone(InstallStep(s, key, t), x)
  {
    var s' := InstallStep(s, key, t);
    if !s.core.closed {
      forall p | 0 <= p < |s'.passes| ensures !Holds(s'.passes[p], s'.core.generation, x) {
        if p < |s.passes| {
          assert Passes.PassOk(s.passes[p], p, s.reqs);
          assert !Holds(s.passes[p], s.core.generation, x);
        }
      }
    }
  }

  lemma DialKeeps(s: State, a: DialAct, x: Subscription)
    requires Gone(s, x) && Passes.PassInv(s) && DialNext(s, a).Some?
    ensures Gone(DialNext(s, a).value, x)
  {
    if a.DoInstall? {
      InstallKeeps(s, s.run.u.key, s.run.u.t, x);
    } else {
      Passes.DialKeepsPasses(s, a);
    }
  }

  lemma RequestEffect(s: State, id: nat, a: RequestAct, x: Subscription)
    requires RequestNext(s, id, a).Some? && x !in s.core.subs
    requires s.core.closed || !Pending(s.reqs[id], x)
    ensures
      var s' := RequestNext(s, id, a).value;
      x !in s'.core.subs && !Pending(s'.reqs[id], x)
  {
    Subscriptions.RemoveMembers(s.core.subs, s.reqs[id].sub);
  }

  lemma RequestKeeps(s: State, id: nat, a: RequestAct, x: Subscription)
    requires Gone(s, x) && RequestNext(s, id, a).Some?
    ensures Gone(RequestNext(s, id, a).value, x)
  {
    var s' := RequestNext(s, id, a).value;
    RequestEffect(s, id, a, x);
    assert forall k :: 0 <= k < |s.reqs| && k != id ==> s'.reqs[k] == s.reqs[k];
  }

  lemma FromNext(snapshot: seq<Subscription>, i: nat, x: Subscription)
    ensures From(snapshot, i, x) <==> (i < |snapshot| && snapshot[i] == x) || From(snapshot, i + 1, x)
  {}

  /** A pass that does not hold x neither issues a request for it nor comes to hold it. */
  lemma PassEffect(s: State, p: nat, x: Subscription)
    requires PassNext(s, p).Some? && x !in s.core.subs && !s.core.closed
    requires !Holds(s.passes[p], s.core.generation, x)
    ensures
      var s' := PassNext(s, p).value;
      && !Holds(s'.passes[p], s.core.generation, x)
      && (s'.reqs == s.reqs || (|s'.reqs| == |s.reqs| + 1 && s'.reqs[|s.reqs|].sub != x))
  {
    match s.passes[p].pc
    case Snapshotting => SnapshotEffect(s, p, x);
    case Checking(i) => CheckEffect(s, p, i, x);
    case Issuing(i) => IssueEffect(s, p, i, x);
    case Awaiting(i, id) => ResumeEffect(s, p, i, s.reqs[id].pc.result.Some?, x);
    case Rechecking(i) =>
    case Notifying =>
    case Finished(_) =>
  }

  lemma SnapshotEffect(s: State, p: nat, x: Subscription)
    requires p < |s.passes| && x !in s.core.subs
    ensures !Holds(Snapshot(s, p).passes[p], s.core.generation, x)
  {}

  lemma CheckEffect(s: State, p: nat, i: nat, x: Subscription)
    requires p < |s.passes| && s.passes[p].pc == Checking(i) && !Holds(s.passes[p], s.core.generation, x)
    ensures !Holds(Check(s, p, i).passes[p], s.core.generation, x)
  {
    FromNext(s.passes[p].snapshot, i, x);
  }

  lemma IssueEffect(s: State, p: nat, i: nat, x: Subscription)
    requires p < |s.passes| && s.passes[p].pc == Issuing(i) && i < |s.passes[p].snapshot|
    requires !Holds(s.passes[p], s.core.generation, x)
    ensures !Holds(Issue(s, p, i).passes[p], s.core.generation, x) && Issue(s, p, i).reqs[|s.reqs|].sub != x
  {}

  lemma ResumeEffect(s: State, p: nat, i: nat, failed: bool, x: Subscription)
    requires p < |s.passes| && s.passes[p].pc.Awaiting? && s.passes[p].pc.i == i
    requires !Holds(s.passes[p], s.core.generation, x)
    ensures !Holds(Resume(s, p, i, failed).passes[p], s.core.generation, x)
  {}

  lemma PassKeeps(s: State, p: nat, x: Subscription)
    requires Gone(s, x) && PassNext(s, p).Some?
    ensures Gone(PassNext(s, p).value, x)
  {
    var s' := PassNext(s, p).value;
    if !s.core.closed {
      PassEffect(s, p, x);
      assert forall k :: 0 <= k < |s.passes| && k != p ==> s'.passes[k] == s.passes[k];
      assert s'.reqs != s.reqs ==> forall k :: 0 <= k < |s.reqs| ==> s'.reqs[k] == s'.reqs[..|s.reqs|][k];
    }
  }

  lemma CloseKeeps(s: State, landed: bool, x: Subscription)
    requires Gone(s, x) && CloseNext(s, landed).Some?
    ensures Gone(CloseNext(s, landed).value, x)
  {}

  lemma StepKeeps(env: Env, s: State, step: Step, s': State, x: Subscription)
    requires Gone(s, x) && Passes.PassInv(s) && Next(env, s, step) == Some(s') && step != Call(true, x)
    ensures Gone(s', x)
  {
    match step
    case ReaderTurn(_) => ReaderKeeps(s, s', x);
    case DialTurn(a) => DialKeeps(s, a, x);
    case RequestTurn(id, a) => RequestKeeps(s, id, a, x);
    case PassTurn(p) => PassKeeps(s, p, x);
    case CloseTurn(landed) => CloseKeeps(s, landed, x);
    case Consume =>
    case Call(_, _) => assert NoneStarts(s.reqs, s'.reqs, x);
  }

  lemma {:induction false} StaysGone(env: Env, s0: State, steps: seq<Step>, s: State, x: Subscription)
    requires Reachable(env, s0) && Gone(s0, x) && Execute(env, s0, steps) == Some(s) && Call(true, x) !in steps
    ensures Gone(s, x)
    decreases |steps|
  {
    if steps != [] {
      var front := steps[..|steps| - 1];
      var mid := Execute(env, s0, front).value;
      StaysGone(env, s0, front, mid, x);
      ReachableLater(env, s0, front, mid);
      ReachablePasses(env, mid);
      StepKeeps(env, mid, steps[|steps| - 1], s, x);
    }
  }

  // ---- it does not last ----

  /** A schedule without a new call to subscribe x. */
  predicate Way(env: Env, s0: State, steps: seq<Step>, s: State, x: Subscription) {
    Execute(env, s0, steps) == Some(s) && Call(true, x) !in steps
  }

  lemma Go(env: Env, s0: State, steps: seq<Step>, s: State, step: Step, s': State, x: Subscription)
    requires Way(env, s0, steps, s, x) && Next(env, s, step) == Some(s') && !step.Call?
    ensures Way(env, s0, steps + [step], s', x)
  {
    ExecuteLast(env, s0, steps, step, s);
  }

  lemma RequestGoes(env: Env, s0: State, steps: seq<Step>, s: State, id: nat, a: RequestAct, s': State, x: Subscription)
    requires Way(env, s0, steps, s, x) && RequestNext(s, id, a) == Some(s')
    ensures Way(env, s0, steps + [RequestTurn(id, a)], s', x)
  {
    Go(env, s0, steps, s, RequestTurn(id, a), s', x);
  }

  lemma PassGoes(env: Env, s0: State, steps: seq<Step>, s: State, p: nat, s': State, x: Subscription)
    requires Way(env, s0, steps, s, x) && PassNext(s, p) == Some(s')
    ensures Way(env, s0, steps + [PassTurn(p)], s', x)
  {
    Go(env, s0, steps, s, PassTurn(p), s', x);
  }

  /** How far a request is from its return. */
  function Rank(pc: RequestPc): nat {
    match pc
    case Starting => 5
    case Writing(_, _) => 4
    case Waiting => 3
    case Forgetting(_, _) => 2
    case Retracting(_) => 1
    case Returned(_) => 0
  }

  /** A step by which a request comes nearer to its return, without anybody's help. */
  function Urge(pc: RequestPc): RequestAct {
    match pc
    case Starting => DoRegister
    case Writing(_, _) => DoWrite(true, true)
    case Waiting => DoCancel
    case Forgetting(_, _) => DoForget
    case _ => DoRetract
  }

  lemma UrgeHelps(s: State, id: nat)
    requires id < |s.reqs| && !s.reqs[id].pc.Returned?
    ensures
      var next := RequestNext(s, id, Urge(s.reqs[id].pc));
      next.Some? && Rank(next.value.reqs[id].pc) < Rank(s.reqs[id].pc)
  {
    if s.reqs[id].pc.Starting? || s.reqs[id].pc.Writing? {
      UrgeSending(s, id);
    } else {
      UrgeLeaving(s, id);
    }
  }

  lemma UrgeSending(s: State, id: nat)
    requires id < |s.reqs| && (s.reqs[id].pc.Starting? || s.reqs[id].pc.Writing?)
    ensures
      var next := RequestNext(s, id, Urge(s.reqs[id].pc));
      next.Some? && Rank(next.value.reqs[id].pc) < Rank(s.reqs[id].pc)
  {}

  lemma UrgeLeaving(s: State, id: nat)
    requires id < |s.reqs| && (s.reqs[id].pc.Waiting? || s.reqs[id].pc.Forgetting? || s.reqs[id].pc.Retracting?)
    ensures
      var next := RequestNext(s, id, Urge(s.reqs[id].pc));
      next.Some? && Rank(next.value.reqs[id].pc) < Rank(s.reqs[id].pc)
  {}

  /** Any request can come to its return on its own. */
  lemma FinishRequest(env: Env, s0: State, steps: seq<Step>, s: State, id: nat, x: Subscription)
    returns (steps': seq<Step>, s': State)
    requires Way(env, s0, steps, s, x) && id < |s.reqs|
    ensures Way(env, s0, steps', s', x) && |s'.reqs| == |s.reqs| && s'.reqs[id].pc.Returned?
    ensures s'.passes == s.passes && s'.core.closed == s.core.closed && s'.core.generation == s.core.generation
    ensures s'.hist.notices == s.hist.notices
    decreases Rank(s.reqs[id].pc)
  {
    if s.reqs[id].pc.Returned? {
      steps', s' := steps, s;
    } else {
      UrgeHelps(s, id);
      var a := Urge(s.reqs[id].pc);
      var s1 := RequestNext(s, id, a).value;
      RequestGoes(env, s0, steps, s, id, a, s1, x);
      steps', s' := FinishRequest(env, s0, steps + [RequestTurn(id, a)], s1, id, x);
    }
  }

  /** A subscribe request that has not registered puts its entry on the list. */
  lemma RegisterX(env: Env, s0: State, steps: seq<Step>, s: State, id: nat, x: Subscription)
    returns (steps': seq<Step>, s': State)
    requires Way(env, s0, steps, s, x) && id < |s.reqs| && Pending(s.reqs[id], x) && !s.core.closed
    ensures Way(env, s0, steps', s', x) && x in s'.core.subs
  {
    s' := RegisterStep(s, id);
    RequestGoes(env, s0, steps, s, id, DoRegister, s', x);
    steps' := steps + [RequestTurn(id, DoRegister)];
  }

  /** The pass is of the current generation. */
  predicate OnCourse(s: State, p: nat) {
    p < |s.passes| && s.passes[p].generation == s.core.generation && !s.core.closed
  }

  lemma IssueX(env: Env, s0: State, steps: seq<Step>, s: State, p: nat, i: nat, x: Subscription)
    returns (steps': seq<Step>, s': State)
    requires Way(env, s0, steps, s, x) && p < |s.passes| && !s.core.closed
    requires s.passes[p].pc == Issuing(i) && i < |s.passes[p].snapshot| && s.passes[p].snapshot[i] == x
    ensures Way(env, s0, steps', s', x) && x in s'.core.subs
  {
    var s1 := Issue(s, p, i);
    PassGoes(env, s0, steps, s, p, s1, x);
    steps', s' := RegisterX(env, s0, steps + [PassTurn(p)], s1, |s.reqs|, x);
  }

  /** A pass on course comes to every entry it still holds. */
  lemma ReachFromIssuing(env: Env, s0: State, steps: seq<Step>, s: State, p: nat, i: nat, x: Subscription)
    returns (steps': seq<Step>, s': State)
    requires Way(env, s0, steps, s, x) && OnCourse(s, p) && s.passes[p].pc == Issuing(i)
    requires From(s.passes[p].snapshot, i, x)
    ensures Way(env, s0, steps', s', x) && x in s'.core.subs
    decreases |s.passes[p].snapshot| - i, 1
  {
    if s.passes[p].snapshot[i] == x {
      steps', s' := IssueX(env, s0, steps, s, p, i, x);
    } else {
      FromNext(s.passes[p].snapshot, i, x);
      var s1 := Issue(s, p, i);
      PassGoes(env, s0, steps, s, p, s1, x);
      steps', s' := ReachFromAwaiting(env, s0, steps + [PassTurn(p)], s1, p, i, |s.reqs|, x);
    }
  }

  lemma ReachFromAwaiting(env: Env, s0: State, steps: seq<Step>, s: State, p: nat, i: nat, id: nat, x: Subscription)
    returns (steps': seq<Step>, s': State)
    requires Way(env, s0, steps, s, x) && OnCourse(s, p) && s.passes[p].pc == Awaiting(i, id) && id < |s.reqs|
    requires From(s.passes[p].snapshot, i + 1, x)
    ensures Way(env, s0, steps', s', x) && x in s'.core.subs
    decreases |s.passes[p].snapshot| - i, 0
  {
    var steps1, s1 := FinishRequest(env, s0, steps, s, id, x);
    var failed := s1.reqs[id].pc.result.Some?;
    var s2 := Resume(s1, p, i, failed);
    PassGoes(env, s0, steps1, s1, p, s2, x);
    if failed {
      steps', s' := ReachFromRechecking(env, s0, steps1 + [PassTurn(p)], s2, p, i, x);
    } else {
      steps', s' := ReachFromChecking(env, s0, steps1 + [PassTurn(p)], s2, p, i + 1, x);
    }
  }

  lemma ReachFromRechecking(env: Env, s0: State, steps: seq<Step>, s: State, p: nat, i: nat, x: Subscription)
    returns (steps': seq<Step>, s': State)
    requires Way(env, s0, steps, s, x) && OnCourse(s, p) && s.passes[p].pc == Rechecking(i)
    requires From(s.passes[p].snapshot, i + 1, x)
    ensures Way(env, s0, steps', s', x) && x in s'.core.subs
    decreases |s.passes[p].snapshot| - (i + 1), 3
  {
    var s1 := Recheck(s, p, i);
    PassGoes(env, s0, steps, s, p, s1, x);
    steps', s' := ReachFromChecking(env, s0, steps + [PassTurn(p)], s1, p, i + 1, x);
  }

  lemma ReachFromChecking(env: Env, s0: State, steps: seq<Step>, s: State, p: nat, i: nat, x: Subscription)
    returns (steps': seq<Step>, s': State)
    requires Way(env, s0, steps, s, x) && OnCourse(s, p) && s.passes[p].pc == Checking(i)
    requires From(s.passes[p].snapshot, i, x)
    ensures Way(env, s0, steps', s', x) && x in s'.core.subs
    decreases |s.passes[p].snapshot| - i, 2
  {
    var s1 := Check(s, p, i);
    PassGoes(env, s0, steps, s, p, s1, x);
    steps', s' := ReachFromIssuing(env, s0, steps + [PassTurn(p)], s1, p, i, x);
  }

  lemma HolderReturns(env: Env, s: State, p: nat, x: Subscription) returns (steps: seq<Step>, s': State)
    requires Reachable(env, s) && !s.core.closed && p < |s.passes| && Holds(s.passes[p], s.core.generation, x)
    ensures Way(env, s, steps, s', x) && x in s'.core.subs
  {
    ReachablePasses(env, s);
    assert Passes.PassOk(s.passes[p], p, s.reqs);
    match s.passes[p].pc
    case Checking(i) => steps, s' := ReachFromChecking(env, s, [], s, p, i, x);
    case Issuing(i) =>
      if s.passes[p].snapshot[i] == x {
        steps, s' := IssueX(env, s, [], s, p, i, x);
      } else {
        FromNext(s.passes[p].snapshot, i, x);
        steps, s' := ReachFromIssuing(env, s, [], s, p, i, x);
      }
    case Awaiting(i, id) =>
      assert Passes.Restores(s.passes[p], p, s.reqs, i);
      steps, s' := ReachFromAwaiting(env, s, [], s, p, i, id, x);
    case Rechecking(i) => steps, s' := ReachFromRechecking(env, s, [], s, p, i, x);
  }

  /** Whoever is on the way can put the entry back. */
  lemma ComesBack(env: Env, s: State, x: Subscription) returns (steps: seq<Step>, s': State)
    requires Reachable(env, s) && !s.core.closed && !Free(s, x)
    ensures Way(env, s, steps, s', x) && x in s'.core.subs
  {
    if id :| 0 <= id < |s.reqs| && Pending(s.reqs[id], x) {
      steps, s' := RegisterX(env, s, [], s, id, x);
    } else {
      var p :| 0 <= p < |s.passes| && Holds(s.passes[p], s.core.generation, x);
      steps, s' := HolderReturns(env, s, p, x);
    }
  }

  // ---- exactly then ----

  /** x stays off the list whatever happens, unless somebody calls Subscribe for it anew. */
  ghost predicate StaysOff(env: Env, s0: State, x: Subscription) {
    forall steps, s :: Way(env, s0, steps, s, x) ==> x !in s.core.subs
  }

  lemma OffForGood(env: Env, s: State, x: Subscription)
    requires Reachable(env, s) && x !in s.core.subs
    ensures StaysOff(env, s, x) <==> s.core.closed || Free(s, x)
  {
    if s.core.closed || Free(s, x) {
      forall steps, s' | Way(env, s, steps, s', x) ensures x !in s'.core.subs {
        StaysGone(env, s, steps, s', x);
      }
    } else {
      var steps, s' := ComesBack(env, s, x);
      assert Way(env, s, steps, s', x);
    }
  }

  /**
   * Unsubscribe stops a subscription from being restored for good exactly if, when it registers,
   * the connection is closed or nobody is on the way to put the entry back: no subscribe request
   * for it that has not registered, and no pass that has still to restore it.
   */
  lemma UnsubscribeLasts(env: Env, s: State, id: nat, s': State)
    requires Reachable(env, s) && RequestNext(s, id, DoRegister) == Some(s')
    requires !s.reqs[id].subscribe && !s.core.closed
    ensures s.reqs[id].sub !in s'.core.subs
    ensures StaysOff(env, s', s.reqs[id].sub) <==> Free(s', s.reqs[id].sub)
  {
    ExecuteOne(env, s, RequestTurn(id, DoRegister));
    ReachableLater(env, s, [RequestTurn(id, DoRegister)], s');
    Subscriptions.RemoveMembers(s.core.subs, s.reqs[id].sub);
    OffForGood(env, s', s.reqs[id].sub);
  }
}
