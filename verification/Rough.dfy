/**
 * A rough reconnect: nobody else calls and no further socket is installed, but everything else may
 * go wrong. Writes may fail, the server may refuse requests or the key, requests may time out, and
 * the new socket may die while the pass is still at work. The documentation promises that every
 * active subscription is restored before the success notification; here is exactly when it is.
 */
module Rough {
  import opened Prelude
  import opened Text
  import opened Protocol
  import opened Pipeline
  import opened Core
  import opened Machine
  import opened Subscriptions
  import opened Schedules
  import opened Outcomes
  import opened Quiet
  import Safety
  import Theorems
  import Passes

  // ---- what is left of the list ----

  predicate DroppedAt(reqs: seq<Request>, id: nat) {
    id < |reqs| && Dropped(reqs[id])
  }

  /** The first n subscriptions without those whose request, numbered from base, was dropped. */
  function Surviving(subs: seq<Subscription>, reqs: seq<Request>, base: nat, n: nat): seq<Subscription>
    requires n <= |subs|
  {
    if n == 0 then [] else
      Surviving(subs, reqs, base, n - 1) + if DroppedAt(reqs, base + n - 1) then [] else [subs[n - 1]]
  }

  lemma {:induction false} SurvivingSame(subs: seq<Subscription>, reqs: seq<Request>, reqs': seq<Request>, base: nat,
                                         n: nat)
    requires n <= |subs| && forall id :: base <= id < base + n ==> (DroppedAt(reqs', id) <==> DroppedAt(reqs, id))
    ensures Surviving(subs, reqs', base, n) == Surviving(subs, reqs, base, n)
    decreases n
  {
    if n > 0 {
      SurvivingSame(subs, reqs, reqs', base, n - 1);
      assert DroppedAt(reqs', base + n - 1) <==> DroppedAt(reqs, base + n - 1);
    }
  }

  lemma {:induction false} SurvivorsAreEntries(subs: seq<Subscription>, reqs: seq<Request>, base: nat, n: nat, i: nat)
    requires n <= |subs| && NoDuplicates(subs) && i < |subs|
    ensures subs[i] in Surviving(subs, reqs, base, n) <==> i < n && !DroppedAt(reqs, base + i)
    decreases n
  {
    if n > 0 {
      SurvivorsAreEntries(subs, reqs, base, n - 1, i);
      assert i != n - 1 ==> subs[i] != subs[n - 1];
    }
  }

  lemma RemoveLast(subs: seq<Subscription>, x: Subscription, s: Subscription)
    ensures RemoveSub(subs + [x], s) == if x == s then RemoveSub(subs, s) else RemoveSub(subs, s) + [x]
  {
    assert (subs + [x])[..|subs|] == subs;
  }

  /** The survivors without entry i. */
  function Without(subs: seq<Subscription>, reqs: seq<Request>, base: nat, n: nat, i: nat): seq<Subscription>
    requires n <= |subs|
  {
    if n == 0 then [] else
      Without(subs, reqs, base, n - 1, i) + if n - 1 == i || DroppedAt(reqs, base + n - 1) then [] else [subs[n - 1]]
  }

  /** s stands at position i and nowhere else. */
  predicate OnlyAt(subs: seq<Subscription>, s: Subscription, i: nat) {
    forall k :: 0 <= k < |subs| ==> (subs[k] == s <==> k == i)
  }

  lemma {:induction false} RemoveSurvivor(subs: seq<Subscription>, reqs: seq<Request>, base: nat, n: nat, i: nat,
                                          s: Subscription)
    requires n <= |subs| && OnlyAt(subs, s, i)
    ensures RemoveSub(Surviving(subs, reqs, base, n), s) == Without(subs, reqs, base, n, i)
    decreases n
  {
    if n == 0 {
      NothingLeft(subs, reqs, base, i, s);
    } else {
      RemoveSurvivor(subs, reqs, base, n - 1, i, s);
      RemoveNext(subs, reqs, base, n, i, s);
    }
  }

  lemma NothingLeft(subs: seq<Subscription>, reqs: seq<Request>, base: nat, i: nat, s: Subscription)
    ensures RemoveSub(Surviving(subs, reqs, base, 0), s) == Without(subs, reqs, base, 0, i)
  {}

  lemma RemoveNext(subs: seq<Subscription>, reqs: seq<Request>, base: nat, n: nat, i: nat, s: Subscription)
    requires 0 < n <= |subs| && OnlyAt(subs, s, i)
    requires RemoveSub(Surviving(subs, reqs, base, n - 1), s) == Without(subs, reqs, base, n - 1, i)
    ensures RemoveSub(Surviving(subs, reqs, base, n), s) == Without(subs, reqs, base, n, i)
  {
    SurvivingNext(subs, reqs, base, n);
    WithoutNext(subs, reqs, base, n, i);
    RemoveStep(Surviving(subs, reqs, base, n - 1), Without(subs, reqs, base, n - 1, i), subs[n - 1], s,
               DroppedAt(reqs, base + n - 1));
  }

  lemma RemoveStep(front: seq<Subscription>, rest: seq<Subscription>, x: Subscription, s: Subscription, dropped: bool)
    requires RemoveSub(front, s) == rest
    ensures RemoveSub(if dropped then front else front + [x], s) == if dropped || x == s then rest else rest + [x]
  {
    RemoveLast(front, x, s);
  }

  lemma WithoutNext(subs: seq<Subscription>, reqs: seq<Request>, base: nat, n: nat, i: nat)
    requires 0 < n <= |subs|
    ensures var front := Without(subs, reqs, base, n - 1, i);
      Without(subs, reqs, base, n, i) ==
        if n - 1 == i || DroppedAt(reqs, base + n - 1) then front else front + [subs[n - 1]]
  {
    var front := Without(subs, reqs, base, n - 1, i);
    assert front + [] == front;
  }

  /** Only the fate of request `which` may differ. */
  ghost predicate SameBut(reqs: seq<Request>, reqs': seq<Request>, which: nat) {
    forall id: nat :: id != which ==> (DroppedAt(reqs', id) <==> DroppedAt(reqs, id))
  }

  lemma {:induction false} SurvivingWithout(subs: seq<Subscription>, reqs: seq<Request>, reqs': seq<Request>, base: nat,
                                            n: nat, i: nat)
    requires n <= |subs| && DroppedAt(reqs', base + i) && SameBut(reqs, reqs', base + i)
    ensures Surviving(subs, reqs', base, n) == Without(subs, reqs, base, n, i)
    decreases n
  {
    if n > 0 {
      SurvivingWithout(subs, reqs, reqs', base, n - 1, i);
      assert n - 1 != i ==> (DroppedAt(reqs', base + n - 1) <==> DroppedAt(reqs, base + n - 1));
    }
  }

  /** Dropping request i takes its subscription, and only that one, off the list. */
  lemma DropOne(subs: seq<Subscription>, reqs: seq<Request>, reqs': seq<Request>, base: nat, i: nat)
    requires NoDuplicates(subs) && i < |subs| && DroppedAt(reqs', base + i) && SameBut(reqs, reqs', base + i)
    ensures Surviving(subs, reqs', base, |subs|) == RemoveSub(Surviving(subs, reqs, base, |subs|), subs[i])
  {
    RemoveSurvivor(subs, reqs, base, |subs|, i, subs[i]);
    SurvivingWithout(subs, reqs, reqs', base, |subs|, i);
  }

  lemma SurvivingNext(subs: seq<Subscription>, reqs: seq<Request>, base: nat, n: nat)
    requires 0 < n <= |subs|
    ensures var front := Surviving(subs, reqs, base, n - 1);
      Surviving(subs, reqs, base, n) == if DroppedAt(reqs, base + n - 1) then front else front + [subs[n - 1]]
  {
    var front := Surviving(subs, reqs, base, n - 1);
    assert front + [] == front;
  }

  lemma SameWithLast<T>(a: seq<T>, b: seq<T>, x: T)
    ensures a + [x] == b + [x] <==> a == b
  {
    assert (a + [x])[..|a + [x]| - 1] == a && (b + [x])[..|b + [x]| - 1] == b;
  }

  /** Everything survives exactly if nothing is dropped. */
  lemma {:induction false} AllSurvive(subs: seq<Subscription>, reqs: seq<Request>, base: nat, n: nat)
    requires n <= |subs|
    ensures |Surviving(subs, reqs, base, n)| <= n
    ensures Surviving(subs, reqs, base, n) == subs[..n] <==> forall id :: base <= id < base + n ==> !DroppedAt(reqs, id)
    decreases n
  {
    if n > 0 {
      AllSurvive(subs, reqs, base, n - 1);
      SurvivingNext(subs, reqs, base, n);
      assert subs[..n] == subs[..n - 1] + [subs[n - 1]];
      if !DroppedAt(reqs, base + n - 1) {
        SameWithLast(Surviving(subs, reqs, base, n - 1), subs[..n - 1], subs[n - 1]);
      }
    }
  }

  // ---- the invariant of a rough reconnect ----

  /** The pass's generation is still the current one; its socket may be gone. */
  predicate Current(q: Setup, s: State) {
    && (s.core.transport.Some? ==> s.core.transport == Some(q.t))
    && s.core.generation == q.generation && !s.core.closed
    && q.t < |s.socks|
    && 1 <= q.generation == |s.passes|
    && (forall p :: 0 <= p < q.generation - 1 ==> s.passes[p].pc.Finished?)
  }

  predicate Place(q: Setup, pass: Pass) {
    && pass.generation == q.generation && pass.attempt == q.attempt
    && (if pass.pc.Snapshotting? then pass.ids == [] else pass.snapshot == q.subs)
    && match pass.pc
       case Snapshotting => true
       case Checking(i) => |pass.ids| == i <= |q.subs|
       case Issuing(i) => |pass.ids| == i < |q.subs|
       case Awaiting(i, id) => |pass.ids| == i + 1 <= |q.subs| && id == q.base + i
       case Rechecking(i) => |pass.ids| == i + 1 <= |q.subs|
       case Notifying => |pass.ids| == |q.subs|
       case Finished(reported) => |pass.ids| == |q.subs| && reported
  }

  /** A request of the pass under way; if it found a socket, it is the pass's own. */
  predicate UnderWay(q: Setup, r: Request, sub: Subscription) {
    && r.subscribe && r.sub == sub && Told(r)
    && (r.pc.Writing? && r.pc.socket.Some? ==> r.pc.socket == Some(q.t))
  }

  predicate Issued(q: Setup, pass: Pass, reqs: seq<Request>) {
    && |reqs| == q.base + |pass.ids|
    && (forall id :: 0 <= id < |reqs| && id < q.base + Completed(pass) ==> reqs[id].pc.Returned?)
    && (pass.pc.Awaiting? ==>
          pass.pc.i < |q.subs| && pass.pc.id < |reqs| && UnderWay(q, reqs[pass.pc.id], q.subs[pass.pc.i]))
  }

  function Success(q: Setup): Notice {
    Restored(q.generation, q.attempt, |q.subs|)
  }

  /** Of the notices since the start one is the pass's success, once it has finished, and none is another's. */
  predicate Noticed(q: Setup, pass: Pass, notices: seq<Notice>) {
    && q.notices <= notices
    && (forall k :: |q.notices| <= k < |notices| && notices[k].Restored? ==>
          notices[k] == Success(q) && pass.pc.Finished?)
    && (pass.pc.Finished? ==> Success(q) in notices[|q.notices|..])
  }

  predicate RoughInv(q: Setup, s: State) {
    && NoDuplicates(q.subs)
    && Current(q, s)
    && var pass := Mine(q, s.passes);
    && Place(q, pass)
    && Issued(q, pass, s.reqs)
    && s.core.subs == Surviving(q.subs, s.reqs, q.base, |q.subs|)
    && Noticed(q, pass, s.hist.notices)
  }

  lemma InstallStarts(s: State)
    requires Resting(s) && NoDuplicates(s.core.subs)
    ensures RoughInv(SetupOf(s), InstallStep(s, s.run.u.key, s.run.u.t))
  {
    var q := SetupOf(s);
    AllSurvive(q.subs, s.reqs, q.base, |q.subs|);
    assert q.subs[..|q.subs|] == q.subs;
  }

  // ---- the run goroutine ----

  lemma ReaderKeeps(q: Setup, s: State, s': State)
    requires RoughInv(q, s) && ReaderFrame(s, s')
    ensures RoughInv(q, s')
  {
    SurvivingSame(q.subs, s.reqs, s'.reqs, q.base, |q.subs|);
  }

  lemma DialEffect(s: State, a: DialAct)
    requires DialNext(s, a).Some? && !a.DoInstall?
    ensures
      var s' := DialNext(s, a).value;
      && s'.passes == s.passes && s'.core.generation == s.core.generation
      && (s'.core.transport == s.core.transport || s'.core.transport == None)
  {
    Passes.DialKeepsPasses(s, a);
  }

  lemma NoticedLonger(q: Setup, pass: Pass, notices: seq<Notice>, notice: Notice)
    requires Noticed(q, pass, notices)
    requires notice.Restored? ==> notice == Success(q) && pass.pc.Finished?
    ensures Noticed(q, pass, notices + [notice])
  {
    var more := notices + [notice];
    assert more[|q.notices|..] == notices[|q.notices|..] + [notice];
  }

  lemma DialKeeps(q: Setup, s: State, a: DialAct)
    requires RoughInv(q, s) && DialNext(s, a).Some? && !a.DoInstall?
    ensures RoughInv(q, DialNext(s, a).value)
  {
    var s' := DialNext(s, a).value;
    DialEffect(s, a);
    DialSockets(s, a);
    if s'.hist.notices != s.hist.notices {
      NoticedLonger(q, Mine(q, s.passes), s.hist.notices, Stopped(s.attempt));
    }
  }

  // ---- the requests ----

  lemma OnlyCurrentMoves(q: Setup, s: State, id: nat, a: RequestAct)
    requires RoughInv(q, s) && RequestNext(s, id, a).Some?
    ensures Mine(q, s.passes).pc.Awaiting? && id == Mine(q, s.passes).pc.id == |s.reqs| - 1 && !s.reqs[id].pc.Returned?
  {
    assert !s.reqs[id].pc.Returned?;
  }

  /** What a step of the current request does, seen from the list. */
  predicate CurrentMoves(q: Setup, s: State, s': State, id: nat, i: nat)
    requires i < |q.subs| && RequestFrame(s, s', id)
  {
    && UnderWay(q, s'.reqs[id], q.subs[i])
    && s'.core.subs == if Dropped(s'.reqs[id]) then RemoveSub(s.core.subs, q.subs[i]) else s.core.subs
  }

  lemma CurrentKeeps(q: Setup, s: State, s': State, id: nat)
    requires RoughInv(q, s) && RequestFrame(s, s', id)
    requires Mine(q, s.passes).pc.Awaiting? && id == Mine(q, s.passes).pc.id && !s.reqs[id].pc.Returned?
    requires CurrentMoves(q, s, s', id, Mine(q, s.passes).pc.i)
    ensures RoughInv(q, s')
  {
    var pass := Mine(q, s.passes);
    var i, n := pass.pc.i, |q.subs|;
    assert id == q.base + i;
    assert forall k :: 0 <= k < |s.reqs| && k != id ==> s'.reqs[k] == s.reqs[k];
    if Dropped(s'.reqs[id]) {
      DropOne(q.subs, s.reqs, s'.reqs, q.base, i);
    } else {
      SurvivingSame(q.subs, s.reqs, s'.reqs, q.base, n);
    }
  }

  /** The request is under way, so its subscription is on the list. */
  lemma CurrentListed(q: Setup, s: State, id: nat, i: nat)
    requires RoughInv(q, s) && Mine(q, s.passes).pc == Awaiting(i, id) && !s.reqs[id].pc.Returned?
    ensures q.subs[i] in s.core.subs
  {
    SurvivorsAreEntries(q.subs, s.reqs, q.base, |q.subs|, i);
  }

  lemma CurrentEffect(q: Setup, s: State, id: nat, a: RequestAct, i: nat)
    requires RequestNext(s, id, a).Some? && !s.reqs[id].pc.Returned?
    requires i < |q.subs| && UnderWay(q, s.reqs[id], q.subs[i])
    requires !s.core.closed && q.t < |s.socks| && q.subs[i] in s.core.subs
    requires s.core.transport.Some? ==> s.core.transport == Some(q.t)
    ensures CurrentMoves(q, s, RequestNext(s, id, a).value, id, i)
  {
    Outcomes.RequestEffect(s, id, a);
    if a.DoRegister? {
      assert AddSub(s.core.subs, q.subs[i]) == s.core.subs;
    } else {
      ListEffect(s, id, a);
    }
  }

  /** After its registration a subscribe request touches the list only when it is dropped. */
  lemma ListEffect(s: State, id: nat, a: RequestAct)
    requires RequestNext(s, id, a).Some? && !a.DoRegister? && s.reqs[id].subscribe && Told(s.reqs[id])
    requires !s.reqs[id].pc.Returned? && InRange(s, id)
    ensures
      var s' := RequestNext(s, id, a).value;
      s'.core.subs == (if Dropped(s'.reqs[id]) then RemoveSub(s.core.subs, s.reqs[id].sub) else s.core.subs)
      && !s'.reqs[id].pc.Writing?
  {
    if !a.DoRetract? {
      assert RequestNext(s, id, a).value.core.subs == s.core.subs;
    }
  }

  lemma RequestKeeps(q: Setup, s: State, id: nat, a: RequestAct)
    requires RoughInv(q, s) && RequestNext(s, id, a).Some?
    ensures RoughInv(q, RequestNext(s, id, a).value)
  {
    OnlyCurrentMoves(q, s, id, a);
    var i := Mine(q, s.passes).pc.i;
    CurrentListed(q, s, id, i);
    CurrentEffect(q, s, id, a, i);
    CurrentKeeps(q, s, RequestNext(s, id, a).value, id);
  }

  // ---- the pass ----

  lemma PassStepKeeps(q: Setup, s: State, s': State)
    requires RoughInv(q, s) && PassFrame(s, s', q.generation - 1)
    requires Place(q, Mine(q, s'.passes)) && Issued(q, Mine(q, s'.passes), s'.reqs)
    requires Noticed(q, Mine(q, s'.passes), s'.hist.notices)
    requires forall id :: 0 <= id < |s.reqs| ==> s'.reqs[id] == s.reqs[id]
    requires forall id :: |s.reqs| <= id < |s'.reqs| ==> s'.reqs[id].pc.Starting?
    ensures RoughInv(q, s')
  {
    SurvivingSame(q.subs, s.reqs, s'.reqs, q.base, |q.subs|);
  }

  lemma SnapshotKeeps(q: Setup, s: State)
    requires RoughInv(q, s) && Mine(q, s.passes).pc.Snapshotting?
    ensures s.core.subs == q.subs && RoughInv(q, Snapshot(s, q.generation - 1))
  {
    AllSurvive(q.subs, s.reqs, q.base, |q.subs|);
    assert q.subs[..|q.subs|] == q.subs;
    PassStepKeeps(q, s, Snapshot(s, q.generation - 1));
  }

  lemma IssueKeeps(q: Setup, s: State, i: nat)
    requires RoughInv(q, s) && Mine(q, s.passes).pc == Issuing(i)
    ensures i < |Mine(q, s.passes).snapshot|
    ensures RoughInv(q, Issue(s, q.generation - 1, i))
  {
    var s' := Issue(s, q.generation - 1, i);
    assert s'.reqs == s.reqs + [NewRequest(PassOf(q.generation - 1), true, q.subs[i])];
    PassStepKeeps(q, s, s');
  }

  lemma ResumeKeeps(q: Setup, s: State, i: nat, id: nat)
    requires RoughInv(q, s) && Mine(q, s.passes).pc == Awaiting(i, id) && s.reqs[id].pc.Returned?
    ensures RoughInv(q, Resume(s, q.generation - 1, i, s.reqs[id].pc.result.Some?))
  {
    PassStepKeeps(q, s, Resume(s, q.generation - 1, i, s.reqs[id].pc.result.Some?));
  }

  lemma NotifyKeeps(q: Setup, s: State)
    requires RoughInv(q, s) && Mine(q, s.passes).pc.Notifying?
    ensures RoughInv(q, Notify(s, q.generation - 1))
  {
    var s' := Notify(s, q.generation - 1);
    var notices := s.hist.notices;
    assert s'.hist.notices == notices + [Success(q)];
    assert s'.hist.notices[|q.notices|..] == notices[|q.notices|..] + [Success(q)];
    PassStepKeeps(q, s, s');
  }

  lemma CheckKeeps(q: Setup, s: State)
    requires RoughInv(q, s) && PassNext(s, q.generation - 1).Some?
    requires var pc := Mine(q, s.passes).pc; pc.Checking? || pc.Rechecking?
    ensures RoughInv(q, PassNext(s, q.generation - 1).value)
  {
    PassStepKeeps(q, s, PassNext(s, q.generation - 1).value);
  }

  lemma PassKeeps(q: Setup, s: State, p: nat)
    requires RoughInv(q, s) && PassNext(s, p).Some?
    ensures RoughInv(q, PassNext(s, p).value)
  {
    assert p == q.generation - 1;
    match s.passes[p].pc
    case Snapshotting => SnapshotKeeps(q, s);
    case Issuing(i) => IssueKeeps(q, s, i);
    case Awaiting(i, id) => ResumeKeeps(q, s, i, id);
    case Notifying => NotifyKeeps(q, s);
    case _ => CheckKeeps(q, s);
  }

  // ---- whole runs ----

  lemma StepKeeps(env: Env, q: Setup, s: State, step: Step, s': State)
    requires RoughInv(q, s) && RoughStep(step) && Next(env, s, step) == Some(s')
    ensures RoughInv(q, s')
  {
    match step
    case ReaderTurn(_) => ReaderKeeps(q, s, s');
    case DialTurn(a) => DialKeeps(q, s, a);
    case RequestTurn(id, a) => RequestKeeps(q, s, id, a);
    case PassTurn(p) => PassKeeps(q, s, p);
    case CloseTurn(_) => assert false;
    case Consume =>
    case Call(_, _) => assert false;
  }

  lemma {:induction false} RoughAlways(env: Env, q: Setup, s0: State, steps: seq<Step>, s: State)
    requires RoughInv(q, s0) && Run(Rough, env, s0, steps) && Execute(env, s0, steps) == Some(s)
    ensures RoughInv(q, s)
    decreases |steps|
  {
    if steps != [] {
      var front := steps[..|steps| - 1];
      var mid := Execute(env, s0, front).value;
      RoughAlways(env, q, s0, front, mid);
      StepKeeps(env, q, mid, steps[|steps| - 1], s);
    }
  }

  /**
   * What a reconnect really restores, up to the installation of yet another socket. The list holds
   * the subscriptions whose request has not been dropped, in the original order, so it is the list
   * of before exactly if no request of the pass found itself without a socket, could not be
   * written, or was refused. The success notification, once it comes, names the size of the
   * snapshot in any case.
   */
  lemma RestoredExactlyIfNoneDropped(env: Env, s0: State, steps: seq<Step>, s: State)
    requires Safety.Reachable(env, s0) && Resting(s0)
    requires
      var s1 := InstallStep(s0, s0.run.u.key, s0.run.u.t);
      Run(Rough, env, s1, steps) && Execute(env, s1, steps) == Some(s)
    ensures s.core.subs == Surviving(s0.core.subs, s.reqs, |s0.reqs|, |s0.core.subs|)
    ensures s.core.subs == s0.core.subs <==> forall id :: |s0.reqs| <= id < |s.reqs| ==> !Dropped(s.reqs[id])
    ensures
      var n := |s0.core.subs|;
      forall k :: |s0.hist.notices| <= k < |s.hist.notices| && s.hist.notices[k].Restored? ==>
        && s.hist.notices[k] == Restored(s0.core.generation + 1, s0.attempt, n)
        && |s.reqs| == |s0.reqs| + n
        && forall id :: |s0.reqs| <= id < |s.reqs| ==> s.reqs[id].pc.Returned?
  {
    var q := SetupOf(s0);
    var _ := Theorems.SubscriptionsInOrder(env, s0);
    InstallStarts(s0);
    RoughAlways(env, q, InstallStep(s0, s0.run.u.key, s0.run.u.t), steps, s);
    Survivors(q, s);
  }

  lemma Survivors(q: Setup, s: State)
    requires RoughInv(q, s)
    ensures s.core.subs == q.subs <==> forall id :: q.base <= id < |s.reqs| ==> !Dropped(s.reqs[id])
  {
    var n := |q.subs|;
    AllSurvive(q.subs, s.reqs, q.base, n);
    assert q.subs[..n] == q.subs;
    assert |s.reqs| <= q.base + n;
    assert (forall id :: q.base <= id < q.base + n ==> !DroppedAt(s.reqs, id))
      <==> (forall id :: q.base <= id < |s.reqs| ==> !Dropped(s.reqs[id])) by {
      assert forall id: nat :: DroppedAt(s.reqs, id) <==> id < |s.reqs| && Dropped(s.reqs[id]);
    }
  }

  // ---- the promise does fail: a pass may lose its whole list and still report it restored ----

  predicate AllDropped(q: Setup, reqs: seq<Request>) {
    q.base <= |reqs| && forall id :: q.base <= id < |reqs| ==> Dropped(reqs[id])
  }

  /** Between two requests of the pass, all of them dropped so far, with these notices sent. */
  predicate Losing(q: Setup, s: State, i: nat, notices: seq<Notice>) {
    && 1 <= q.generation <= |s.passes| && Mine(q, s.passes).pc == Checking(i) && i <= |q.subs|
    && AllDropped(q, s.reqs) && s.hist.notices == notices && Mine(q, s.passes).attempt == q.attempt
  }

  /** The request is issued. */
  lemma IssueOne(env: Env, q: Setup, s0: State, steps: seq<Step>, s: State, i: nat)
    returns (steps': seq<Step>, s': State)
    requires Leads(Rough, env, q, s0, steps, s) && Mine(q, s.passes).pc == Checking(i) && i < |q.subs|
    ensures Leads(Rough, env, q, s0, steps', s') && Mine(q, s'.passes).pc == Awaiting(i, |s.reqs|)
    ensures s'.reqs == s.reqs + [NewRequest(PassOf(q.generation - 1), true, q.subs[i])]
    ensures SameDown(s, s') && Mine(q, s'.passes).attempt == Mine(q, s.passes).attempt
  {
    var p := q.generation - 1;
    var s1 := Check(s, p, i);
    PassGoes(Rough, env, q, s0, steps, s, s1);
    s' := Issue(s1, p, i);
    PassGoes(Rough, env, q, s0, steps + [PassTurn(p)], s1, s');
    steps' := steps + [PassTurn(p)] + [PassTurn(p)];
  }

  /** Requests and passes leave the socket, `run` and the notices alone. */
  predicate SameDown(s: State, s': State) {
    s'.core.transport == s.core.transport && s'.run == s.run && s'.hist.notices == s.hist.notices
  }

  /** It registers, and cannot be written: there is no socket, or the write fails. */
  lemma FailToWrite(env: Env, q: Setup, s0: State, steps: seq<Step>, s: State, id: nat)
    returns (steps': seq<Step>, s': State)
    requires Leads(Rough, env, q, s0, steps, s) && id < |s.reqs| && s.reqs[id].pc.Starting?
    ensures Leads(Rough, env, q, s0, steps', s') && s'.passes == s.passes && SameDown(s, s')
    ensures |s'.reqs| == |s.reqs| && s'.reqs[..id] == s.reqs[..id] && s'.reqs[id].subscribe == s.reqs[id].subscribe
    ensures s'.reqs[id].sending == if s.core.transport.None? then NoSocket else Unwritten
    ensures s'.reqs[id].pc == Forgetting(if s.core.transport.None? then ConnClosed else Broken, true)
  {
    var s1 := RegisterStep(s, id);
    RequestGoes(Rough, env, q, s0, steps, s, id, DoRegister, s1);
    var steps1 := steps + [RequestTurn(id, DoRegister)];
    s' := if s.core.transport.None? then WriteNowhere(s1, id) else WriteError(s1, id, q.t, s.core.key, false);
    RequestGoes(Rough, env, q, s0, steps1, s1, id, DoWrite(false, false), s');
    steps' := steps1 + [RequestTurn(id, DoWrite(false, false))];
  }

  /** It is forgotten and its subscription dropped. */
  lemma Drop(env: Env, q: Setup, s0: State, steps: seq<Step>, s: State, id: nat, err: Fault)
    returns (steps': seq<Step>, s': State)
    requires Leads(Rough, env, q, s0, steps, s) && id < |s.reqs|
    requires s.reqs[id].pc == Forgetting(err, true) && s.reqs[id].subscribe
    ensures Leads(Rough, env, q, s0, steps', s') && s'.passes == s.passes && SameDown(s, s')
    ensures |s'.reqs| == |s.reqs| && s'.reqs[..id] == s.reqs[..id]
    ensures s'.reqs[id].pc == Returned(Some(err)) && s'.reqs[id].sending == s.reqs[id].sending
  {
    var s1 := ForgetSelf(s, id, err, true);
    RequestGoes(Rough, env, q, s0, steps, s, id, DoForget, s1);
    var steps1 := steps + [RequestTurn(id, DoForget)];
    s' := RetractStep(s1, id, err);
    RequestGoes(Rough, env, q, s0, steps1, s1, id, DoRetract, s');
    steps' := steps1 + [RequestTurn(id, DoRetract)];
  }

  /** The pass finds its generation unchanged and goes on. */
  lemma PassOn(env: Env, q: Setup, s0: State, steps: seq<Step>, s: State, i: nat, id: nat)
    returns (steps': seq<Step>, s': State)
    requires Leads(Rough, env, q, s0, steps, s) && Mine(q, s.passes).pc == Awaiting(i, id)
    requires id < |s.reqs| && s.reqs[id].pc.Returned? && s.reqs[id].pc.result.Some?
    ensures Leads(Rough, env, q, s0, steps', s') && Mine(q, s'.passes).pc == Checking(i + 1) && s'.reqs == s.reqs
    ensures SameDown(s, s') && Mine(q, s'.passes).attempt == Mine(q, s.passes).attempt
  {
    var p := q.generation - 1;
    var s1 := Resume(s, p, i, true);
    PassGoes(Rough, env, q, s0, steps, s, s1);
    s' := Recheck(s1, p, i);
    PassGoes(Rough, env, q, s0, steps + [PassTurn(p)], s1, s');
    steps' := steps + [PassTurn(p)] + [PassTurn(p)];
  }

  lemma LastDropped(q: Setup, reqs: seq<Request>, reqs': seq<Request>, id: nat)
    requires AllDropped(q, reqs) && id == |reqs| && |reqs'| == id + 1 && reqs'[..id] == reqs && Dropped(reqs'[id])
    ensures AllDropped(q, reqs')
  {
    forall k | q.base <= k < |reqs'| ensures Dropped(reqs'[k]) {
      assert k < id ==> reqs'[k] == reqs[k];
    }
  }

  /** One round of the pass whose request cannot be written. */
  lemma LoseOne(env: Env, q: Setup, s0: State, steps: seq<Step>, s: State, i: nat)
    returns (steps': seq<Step>, s': State)
    requires Leads(Rough, env, q, s0, steps, s) && Losing(q, s, i, s.hist.notices) && i < |q.subs|
    ensures Leads(Rough, env, q, s0, steps', s') && Losing(q, s', i + 1, s.hist.notices) && SameDown(s, s')
  {
    var id := |s.reqs|;
    var steps1, s1 := IssueOne(env, q, s0, steps, s, i);
    var steps2, s2 := FailToWrite(env, q, s0, steps1, s1, id);
    var steps3, s3 := Drop(env, q, s0, steps2, s2, id, s2.reqs[id].pc.err);
    LastDropped(q, s.reqs, s3.reqs, id);
    steps', s' := PassOn(env, q, s0, steps3, s3, i, id);
  }

  lemma ReportAll(env: Env, q: Setup, s0: State, steps: seq<Step>, s: State) returns (steps': seq<Step>, s': State)
    requires Leads(Rough, env, q, s0, steps, s) && Losing(q, s, |q.subs|, s.hist.notices)
    ensures Leads(Rough, env, q, s0, steps', s') && Mine(q, s'.passes).pc == Finished(true) && s'.reqs == s.reqs
    ensures s'.hist.notices == s.hist.notices + [Success(q)]
    ensures s'.core.transport == s.core.transport && s'.run == s.run
  {
    var p := q.generation - 1;
    var s1 := Check(s, p, |q.subs|);
    PassGoes(Rough, env, q, s0, steps, s, s1);
    s' := TellAll(env, q, s0, steps + [PassTurn(p)], s1);
    steps' := steps + [PassTurn(p)] + [PassTurn(p)];
  }

  lemma TellAll(env: Env, q: Setup, s0: State, steps: seq<Step>, s: State) returns (s': State)
    requires Leads(Rough, env, q, s0, steps, s)
    requires Mine(q, s.passes).pc.Notifying? && Mine(q, s.passes).attempt == q.attempt
    ensures Leads(Rough, env, q, s0, steps + [PassTurn(q.generation - 1)], s') && s'.reqs == s.reqs
    ensures Mine(q, s'.passes).pc == Finished(true) && s'.hist.notices == s.hist.notices + [Success(q)]
    ensures s'.core == s.core && s'.run == s.run
  {
    s' := Notify(s, q.generation - 1);
    PassGoes(Rough, env, q, s0, steps, s, s');
  }

  lemma LoseRest(env: Env, q: Setup, s0: State, steps: seq<Step>, s: State, i: nat)
    returns (steps': seq<Step>, s': State)
    requires Leads(Rough, env, q, s0, steps, s) && Losing(q, s, i, s.hist.notices)
    ensures Leads(Rough, env, q, s0, steps', s') && Mine(q, s'.passes).pc == Finished(true) && AllDropped(q, s'.reqs)
    ensures s'.hist.notices == s.hist.notices + [Success(q)]
    ensures s'.core.transport == s.core.transport && s'.run == s.run
    decreases |q.subs| - i
  {
    if i == |q.subs| {
      steps', s' := ReportAll(env, q, s0, steps, s);
    } else {
      var steps1, s1 := LoseOne(env, q, s0, steps, s, i);
      steps', s' := LoseRest(env, q, s0, steps1, s1, i + 1);
    }
  }

  lemma {:induction false} NoneSurvive(q: Setup, reqs: seq<Request>, n: nat)
    requires n <= |q.subs| && AllDropped(q, reqs) && |reqs| == q.base + |q.subs|
    ensures Surviving(q.subs, reqs, q.base, n) == []
    decreases n
  {
    if n > 0 {
      NoneSurvive(q, reqs, n - 1);
    }
  }

  lemma SnapshotGoes(env: Env, q: Setup, s0: State) returns (steps: seq<Step>, s: State)
    requires RoughInv(q, s0) && Mine(q, s0.passes).pc.Snapshotting?
    ensures Leads(Rough, env, q, s0, steps, s) && Losing(q, s, 0, s0.hist.notices) && SameDown(s0, s)
    ensures s.core == s0.core && s.attempt == s0.attempt
  {
    SnapshotKeeps(q, s0);
    s := Snapshot(s0, q.generation - 1);
    steps := [] + [PassTurn(q.generation - 1)];
    Go(Rough, env, q, s0, [], s0, PassTurn(q.generation - 1), s);
  }

  lemma ListEmptied(env: Env, q: Setup, s1: State, steps: seq<Step>, s: State)
    requires RoughInv(q, s1) && Leads(Rough, env, q, s1, steps, s) && AllDropped(q, s.reqs)
    requires Mine(q, s.passes).pc == Finished(true)
    ensures s.core.subs == []
  {
    RoughAlways(env, q, s1, steps, s);
    NoneSurvive(q, s.reqs, |q.subs|);
  }

  /**
   * For any number of subscriptions a reconnect whose writes all fail ends with an empty list and
   * a success notification that counts every one of them.
   */
  lemma ReportedButLost(env: Env, s0: State) returns (steps: seq<Step>, s: State)
    requires Safety.Reachable(env, s0) && Resting(s0)
    ensures
      var s1 := InstallStep(s0, s0.run.u.key, s0.run.u.t);
      Run(Rough, env, s1, steps) && Execute(env, s1, steps) == Some(s)
    ensures s.core.subs == [] && s.core.transport == Some(s0.run.u.t)
    ensures s.hist.notices == s0.hist.notices + [Restored(s0.core.generation + 1, s0.attempt, |s0.core.subs|)]
  {
    var q, s1 := SetupOf(s0), InstallStep(s0, s0.run.u.key, s0.run.u.t);
    var _ := Theorems.SubscriptionsInOrder(env, s0);
    InstallStarts(s0);
    var steps1, s2 := SnapshotGoes(env, q, s1);
    steps, s := LoseRest(env, q, s1, steps1, s2, 0);
    ListEmptied(env, q, s1, steps, s);
  }

  // ---- and it fails worst when the new socket dies ----

  /** The read loop ends and the dead socket is hung up. */
  lemma GoDown(env: Env, q: Setup, s0: State, steps: seq<Step>, s: State, err: Fault)
    returns (steps': seq<Step>, s': State)
    requires Leads(Rough, env, q, s0, steps, s) && Losing(q, s, 0, s.hist.notices)
    requires s.run == Reader(Failing(err)) && s.core.pending == []
    ensures Leads(Rough, env, q, s0, steps', s') && Losing(q, s', 0, s.hist.notices)
    ensures s'.run == AfterHangUp(err) && s'.core.transport == None
    ensures s'.attempt == if err.SessionOccupied? then s.attempt else s.attempt + 1
  {
    var s1 := FailAll(s, err);
    ReaderGoes(Rough, env, q, s0, steps, s, DoFailAll, s1);
    steps', s' := LeaveGoes(env, q, s0, steps + [ReaderTurn(DoFailAll)], s1, err);
  }

  lemma LeaveGoes(env: Env, q: Setup, s0: State, steps: seq<Step>, s: State, err: Fault)
    returns (steps': seq<Step>, s': State)
    requires Leads(Rough, env, q, s0, steps, s) && Losing(q, s, 0, s.hist.notices)
    requires s.run == Reader(Releasing([], err))
    ensures Leads(Rough, env, q, s0, steps', s') && Losing(q, s', 0, s.hist.notices)
    ensures s'.run == AfterHangUp(err) && s'.core.transport == None
    ensures s'.attempt == if err.SessionOccupied? then s.attempt else s.attempt + 1
  {
    var s1 := Leave(s, err);
    ReaderGoes(Rough, env, q, s0, steps, s, DoLeave, s1);
    steps', s' := HangUpGoes(env, q, s0, steps + [ReaderTurn(DoLeave)], s1, err);
  }

  lemma HangUpGoes(env: Env, q: Setup, s0: State, steps: seq<Step>, s: State, err: Fault)
    returns (steps': seq<Step>, s': State)
    requires Leads(Rough, env, q, s0, steps, s) && Losing(q, s, 0, s.hist.notices) && s.run == Down(Deciding(err))
    ensures Leads(Rough, env, q, s0, steps', s') && Losing(q, s', 0, s.hist.notices)
    ensures s'.run == AfterHangUp(err) && s'.core.transport == None
    ensures s'.attempt == if err.SessionOccupied? then s.attempt else s.attempt + 1
  {
    var s1 := Decide(s, err);
    DialGoes(env, q, s0, steps, s, DoDecide, s1);
    steps', s' := DetachGoes(env, q, s0, steps + [DialTurn(DoDecide)], s1, err);
  }

  lemma DetachGoes(env: Env, q: Setup, s0: State, steps: seq<Step>, s: State, err: Fault)
    returns (steps': seq<Step>, s': State)
    requires Leads(Rough, env, q, s0, steps, s) && Losing(q, s, 0, s.hist.notices) && s.run == Down(Detaching(err))
    ensures Leads(Rough, env, q, s0, steps', s') && Losing(q, s', 0, s.hist.notices)
    ensures s'.run == AfterHangUp(err) && s'.core.transport == None
    ensures s'.attempt == if err.SessionOccupied? then s.attempt else s.attempt + 1
  {
    var s1 := DropTransport(s, err);
    DialGoes(env, q, s0, steps, s, DoDropTransport, s1);
    var steps1 := steps + [DialTurn(DoDropTransport)];
    s' := HangUp(s1, s.core.transport, err);
    DialGoes(env, q, s0, steps1, s1, DoHangUp, s');
    steps' := steps1 + [DialTurn(DoHangUp)];
  }

  /** The reader enters its loop. */
  lemma EnterGoes(env: Env, q: Setup, s0: State, steps: seq<Step>, s: State) returns (steps': seq<Step>, s': State)
    requires Leads(Rough, env, q, s0, steps, s) && Losing(q, s, 0, s.hist.notices) && s.run == Reader(Top)
    requires s.core.transport.Some?
    ensures Leads(Rough, env, q, s0, steps', s') && Losing(q, s', 0, s.hist.notices) && s'.core == s.core
    ensures s'.run == Reader(Reading(q.t)) && s'.attempt == s.attempt
  {
    s' := Enter(s);
    ReaderGoes(Rough, env, q, s0, steps, s, DoEnter, s');
    steps' := steps + [ReaderTurn(DoEnter)];
  }

  /**
   * For any number of subscriptions: the new socket dies before the pass has issued its first
   * request. Each request then finds no socket and is dropped, the generation does not change
   * before the next dial, and the pass reports the whole list restored while it is empty and
   * `run` backs off. The next reconnect has nothing left to restore.
   */
  lemma LostWithTheSocket(env: Env, s0: State) returns (steps: seq<Step>, s: State)
    requires Safety.Reachable(env, s0) && Resting(s0)
    ensures
      var s1 := InstallStep(s0, s0.run.u.key, s0.run.u.t);
      Run(Rough, env, s1, steps) && Execute(env, s1, steps) == Some(s)
    ensures s.core.subs == [] && s.core.transport == None && !s.core.closed && s.run == Up(Sleeping)
    ensures s.hist.notices == s0.hist.notices + [Restored(s0.core.generation + 1, s0.attempt, |s0.core.subs|)]
  {
    var q, s1 := SetupOf(s0), InstallStep(s0, s0.run.u.key, s0.run.u.t);
    var _ := Theorems.SubscriptionsInOrder(env, s0);
    InstallStarts(s0);
    var steps2, s2 := SnapshotGoes(env, q, s1);
    var steps3, s3 := EnterGoes(env, q, s1, steps2, s2);
    var steps4, s4 := DieGoes(env, q, s1, steps3, s3);
    var steps5, s5 := GoDown(env, q, s1, steps4, s4, Broken);
    steps, s := LoseRest(env, q, s1, steps5, s5, 0);
    ListEmptied(env, q, s1, steps, s);
  }

  lemma DieGoes(env: Env, q: Setup, s0: State, steps: seq<Step>, s: State) returns (steps': seq<Step>, s': State)
    requires Leads(Rough, env, q, s0, steps, s) && Losing(q, s, 0, s.hist.notices) && s.run == Reader(Reading(q.t))
    ensures Leads(Rough, env, q, s0, steps', s') && Losing(q, s', 0, s.hist.notices) && s'.core == s.core
    ensures s'.run == Reader(Failing(Broken)) && s'.attempt == s.attempt
  {
    s' := ReadError(s);
    ReaderGoes(Rough, env, q, s0, steps, s, DoReadError, s');
    steps' := steps + [ReaderTurn(DoReadError)];
  }

  // ---- a success may be told after the stop ----

  /** The text is an ACK by which the server reports an occupied session. */
  predicate Occupies(env: Env, text: Bytes) {
    env.classify(text).Ack? && env.verdict(env.classify(text).ack.tr, env.classify(text).ack) == Some(SessionOccupied)
  }

  lemma HearOccupied(env: Env, q: Setup, s0: State, steps: seq<Step>, s: State, text: Bytes)
    returns (steps': seq<Step>, s': State)
    requires Leads(Rough, env, q, s0, steps, s) && Losing(q, s, 0, s.hist.notices) && s.run == Reader(Reading(q.t))
    requires s.core.pending == [] && Occupies(env, text)
    ensures Leads(Rough, env, q, s0, steps', s') && Losing(q, s', 0, s.hist.notices) && s'.core.pending == []
    ensures s'.run == Reader(Failing(SessionOccupied)) && s'.attempt == s.attempt
  {
    var s1 := ReadMessage(env, s, q.t, text);
    ReaderGoes(Rough, env, q, s0, steps, s, DoReadMessage(text), s1);
    var steps1 := steps + [ReaderTurn(DoReadMessage(text))];
    var s2 := TakeAck(env, s1, q.t, env.classify(text).ack);
    ReaderGoes(Rough, env, q, s0, steps1, s1, DoJudge, s2);
    s' := DeliverOccupied(env, q, s0, steps1 + [ReaderTurn(DoJudge)], s2);
    steps' := steps1 + [ReaderTurn(DoJudge)] + [ReaderTurn(DoDeliver)];
  }

  lemma DeliverOccupied(env: Env, q: Setup, s0: State, steps: seq<Step>, s: State) returns (s': State)
    requires Leads(Rough, env, q, s0, steps, s) && Losing(q, s, 0, s.hist.notices)
    requires s.run == Reader(Delivering(q.t, None, Some(SessionOccupied)))
    ensures Leads(Rough, env, q, s0, steps + [ReaderTurn(DoDeliver)], s') && Losing(q, s', 0, s.hist.notices)
    ensures s'.core == s.core && s'.run == Reader(Failing(SessionOccupied)) && s'.attempt == s.attempt
  {
    s' := Deliver(s, q.t, None, Some(SessionOccupied));
    ReaderGoes(Rough, env, q, s0, steps, s, DoDeliver, s');
  }

  lemma AnnounceGoes(env: Env, q: Setup, s0: State, steps: seq<Step>, s: State) returns (steps': seq<Step>, s': State)
    requires Leads(Rough, env, q, s0, steps, s) && Losing(q, s, 0, s.hist.notices) && s.run == End(Announcing)
    ensures Leads(Rough, env, q, s0, steps', s') && Losing(q, s', 0, s.hist.notices + [Stopped(s.attempt)])
    ensures s'.run == End(ClosingEvents)
  {
    s' := Announce(s);
    DialGoes(env, q, s0, steps, s, DoAnnounce, s');
    steps' := steps + [DialTurn(DoAnnounce)];
  }

  /**
   * For any number of subscriptions: the session turns out to be occupied while the pass is at
   * work, `run` tells the stop, and the pass then tells a success for a list it has emptied.
   */
  lemma SuccessAfterStop(env: Env, s0: State, text: Bytes) returns (steps: seq<Step>, s: State)
    requires Safety.Reachable(env, s0) && Resting(s0) && Occupies(env, text)
    ensures
      var s1 := InstallStep(s0, s0.run.u.key, s0.run.u.t);
      Run(Rough, env, s1, steps) && Execute(env, s1, steps) == Some(s)
    ensures s.core.subs == [] && s.run.End?
    ensures
      s.hist.notices == s0.hist.notices
        + [Stopped(s0.attempt)] + [Restored(s0.core.generation + 1, s0.attempt, |s0.core.subs|)]
  {
    var q, s1 := SetupOf(s0), InstallStep(s0, s0.run.u.key, s0.run.u.t);
    var _ := Theorems.SubscriptionsInOrder(env, s0);
    InstallStarts(s0);
    var steps2, s2 := SnapshotGoes(env, q, s1);
    var steps3, s3 := EnterGoes(env, q, s1, steps2, s2);
    var steps4, s4 := HearOccupied(env, q, s1, steps3, s3, text);
    var steps5, s5 := GoDown(env, q, s1, steps4, s4, SessionOccupied);
    var steps6, s6 := AnnounceGoes(env, q, s1, steps5, s5);
    steps, s := LoseRest(env, q, s1, steps6, s6, 0);
    ListEmptied(env, q, s1, steps, s);
  }
}
