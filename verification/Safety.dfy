/** The main results: what holds in every state that any schedule of all parties can reach. */
module Safety {
  import opened Prelude
  import opened Text
  import opened Protocol
  import opened Crypto
  import opened Pipeline
  import opened Core
  import opened Machine
  import Sockets
  import Keys
  import Waiters
  import Passes
  import Delivery
  import Arrivals
  import Runs
  import Subscriptions
  import Dials
  import Wires
  import Outcomes
  import Notices

  ghost predicate Inv(env: Env, s: State) {
    && Sockets.SocketInv(s) && Keys.KeyInv(s) && Waiters.WaiterInv(s) && Passes.PassInv(s) && Passes.OwnerInv(s)
    && Delivery.DeliveryInv(env, s) && Arrivals.ArrivalInv(env, s) && Subscriptions.SubInv(s) && Dials.DialInv(s)
    && Wires.WireInv(s) && Outcomes.OutcomeInv(s) && Notices.NoticeInv(s)
  }

  ghost predicate Reachable(env: Env, s: State) {
    exists key, steps :: Execute(env, Init(key), steps) == Some(s)
  }

  lemma InitHolds(env: Env, key: Bytes)
    ensures Inv(env, Init(key))
  {
    Sockets.InitHolds(key);
    Keys.InitHolds(key);
    Waiters.InitHolds(key);
    Passes.InitHolds(key);
    Delivery.InitHolds(env, key);
    Arrivals.InitHolds(env, key);
    Subscriptions.InitHolds(key);
    Dials.InitHolds(key);
    Wires.InitHolds(key);
    Outcomes.InitHolds(key);
    Notices.InitHolds(key);
  }

  lemma AllAreRegistered(s: State)
    requires Passes.PassInv(s)
    ensures Outcomes.AllRegistered(s)
  {
    forall id | 0 <= id < |s.reqs| && s.reqs[id].registered.None?
      ensures s.reqs[id].pc.Starting? || s.reqs[id].pc.Returned?
    {
      assert Passes.RequestOk(s.reqs[id], s.core.generation, s.core.closed);
    }
  }

  lemma StepKeeps(env: Env, s: State, step: Step, s': State)
    requires Inv(env, s) && Next(env, s, step) == Some(s')
    ensures Inv(env, s')
  {
    Sockets.StepKeeps(env, s, step);
    Keys.StepKeeps(env, s, step);
    Waiters.StepKeeps(env, s, step);
    Passes.StepKeeps(env, s, step);
    Passes.StepKeepsOwners(env, s, step);
    Delivery.StepKeeps(env, s, step);
    Arrivals.StepKeeps(env, s, step);
    Subscriptions.StepKeeps(env, s, step);
    Dials.StepKeeps(env, s, step);
    Wires.StepKeeps(env, s, step);
    AllAreRegistered(s);
    Outcomes.StepKeeps(env, s, step);
    Notices.StepKeeps(env, s, step);
  }

  /** Schedules run one after the other. */
  lemma {:induction false} ExecuteJoin(env: Env, s: State, first: seq<Step>, rest: seq<Step>)
    requires Execute(env, s, first).Some?
    ensures Execute(env, s, first + rest) == Execute(env, Execute(env, s, first).value, rest)
    decreases |rest|
  {
    if rest == [] {
      assert first + rest == first;
    } else {
      var front, step := rest[..|rest| - 1], rest[|rest| - 1];
      assert rest == front + [step] && first + rest == first + front + [step];
      ExecuteJoin(env, s, first, front);
      JoinLast(env, s, first, front, step);
    }
  }

  lemma JoinLast(env: Env, s: State, first: seq<Step>, front: seq<Step>, step: Step)
    requires Execute(env, s, first).Some?
    requires Execute(env, s, first + front) == Execute(env, Execute(env, s, first).value, front)
    ensures Execute(env, s, first + front + [step]) == Execute(env, Execute(env, s, first).value, front + [step])
  {
    ExecuteSplit(env, Execute(env, s, first).value, front, step);
    ExecuteSplit(env, s, first + front, step);
  }

  lemma ExecuteSplit(env: Env, s: State, front: seq<Step>, step: Step)
    ensures var mid := Execute(env, s, front);
      Execute(env, s, front + [step]) == if mid.Some? then Next(env, mid.value, step) else None
  {
    assert (front + [step])[..|front|] == front;
  }

  lemma ExecuteOne(env: Env, s: State, step: Step)
    ensures Execute(env, s, [step]) == Next(env, s, step)
  {
    assert [] + [step] == [step];
    ExecuteSplit(env, s, [], step);
  }

  lemma ExecuteLast(env: Env, s: State, front: seq<Step>, step: Step, mid: State)
    requires Execute(env, s, front) == Some(mid)
    ensures Execute(env, s, front + [step]) == Next(env, mid, step)
  {
    ExecuteSplit(env, s, front, step);
  }

  /** Some schedule leads from a to b. */
  ghost predicate Reaches(env: Env, a: State, b: State) {
    exists steps :: Execute(env, a, steps) == Some(b)
  }

  lemma ReachesSelf(env: Env, a: State)
    ensures Reaches(env, a, a)
  {
    assert Execute(env, a, []) == Some(a);
  }

  lemma ReachesNext(env: Env, a: State, b: State, step: Step, c: State)
    requires Reaches(env, a, b) && Next(env, b, step) == Some(c)
    ensures Reaches(env, a, c)
  {
    var steps :| Execute(env, a, steps) == Some(b);
    ExecuteLast(env, a, steps, step, b);
  }

  lemma ReachesOn(env: Env, a: State, b: State, c: State)
    requires Reaches(env, a, b) && Reaches(env, b, c)
    ensures Reaches(env, a, c)
  {
    var first :| Execute(env, a, first) == Some(b);
    var rest :| Execute(env, b, rest) == Some(c);
    ExecuteJoin(env, a, first, rest);
  }

  lemma ReachesReachable(env: Env, a: State, b: State)
    requires Reachable(env, a) && Reaches(env, a, b)
    ensures Reachable(env, b)
  {
    var steps :| Execute(env, a, steps) == Some(b);
    ReachableLater(env, a, steps, b);
  }

  /** Every interleaving keeps the invariant. */
  lemma {:induction false} Always(env: Env, s0: State, steps: seq<Step>, s: State)
    requires Inv(env, s0) && Execute(env, s0, steps) == Some(s)
    ensures Inv(env, s)
    decreases |steps|
  {
    if steps != [] {
      var mid := Execute(env, s0, steps[..|steps| - 1]).value;
      Always(env, s0, steps[..|steps| - 1], mid);
      StepKeeps(env, mid, steps[|steps| - 1], s);
    }
  }

  lemma ReachableLater(env: Env, s0: State, steps: seq<Step>, s: State)
    requires Reachable(env, s0) && Execute(env, s0, steps) == Some(s)
    ensures Reachable(env, s)
  {
    var key, before :| Execute(env, Init(key), before) == Some(s0);
    ExecuteJoin(env, Init(key), before, steps);
  }

  lemma ReachableInv(env: Env, s: State)
    requires Reachable(env, s)
    ensures Inv(env, s)
  {
    var key, steps :| Execute(env, Init(key), steps) == Some(s);
    InitHolds(env, key);
    Always(env, Init(key), steps, s);
  }

  lemma ReachableSockets(env: Env, s: State)
    requires Reachable(env, s)
    ensures Sockets.SocketInv(s)
  {
    ReachableInv(env, s);
  }

  lemma ReachableStopped(env: Env, s: State)
    requires Reachable(env, s) && (s.closer.CloseReturned? || (s.stopped && !s.core.closed))
    ensures s.eventsClosed && forall t :: 0 <= t < |s.socks| ==> s.socks[t].closed
  {
    ReachableSockets(env, s);
    Sockets.StoppedHoldsNone(s);
  }

  lemma ReachableKeys(env: Env, s: State)
    requires Reachable(env, s)
    ensures Keys.KeyInv(s)
  {
    ReachableInv(env, s);
  }

  lemma ReachableWaiters(env: Env, s: State)
    requires Reachable(env, s)
    ensures Waiters.WaiterInv(s)
  {
    ReachableInv(env, s);
  }

  lemma ReachablePasses(env: Env, s: State)
    requires Reachable(env, s)
    ensures Passes.PassInv(s)
  {
    ReachableInv(env, s);
  }

  lemma ReachableDelivery(env: Env, s: State)
    requires Reachable(env, s)
    ensures Delivery.DeliveryInv(env, s)
  {
    ReachableInv(env, s);
  }

  lemma ReachableCounted(env: Env, s: State)
    requires Reachable(env, s)
    ensures Delivery.Counted(env, s)
  {
    ReachableDelivery(env, s);
  }

  lemma ReachableArrivals(env: Env, s: State)
    requires Reachable(env, s)
    ensures Arrivals.ArrivalInv(env, s)
  {
    ReachableInv(env, s);
  }

  lemma ReachableSubs(env: Env, s: State)
    requires Reachable(env, s)
    ensures Subscriptions.SubInv(s)
  {
    ReachableInv(env, s);
  }

  lemma ReachableDials(env: Env, s: State)
    requires Reachable(env, s)
    ensures Dials.DialInv(s)
  {
    ReachableInv(env, s);
  }

  lemma ReachableWires(env: Env, s: State)
    requires Reachable(env, s)
    ensures Wires.WireInv(s)
  {
    ReachableInv(env, s);
  }

  lemma ReachableOutcomes(env: Env, s: State)
    requires Reachable(env, s)
    ensures Outcomes.OutcomeInv(s)
  {
    ReachableInv(env, s);
  }

  lemma ReachableNotices(env: Env, s: State)
    requires Reachable(env, s)
    ensures Notices.NoticeInv(s)
  {
    ReachableInv(env, s);
  }

  lemma {:induction false} RunsAlways(env: Env, key: Bytes, steps: seq<Step>, s: State)
    requires Runs.Sound(env) && Execute(env, Init(key), steps) == Some(s)
    ensures Runs.RunInv(s)
    decreases |steps|
  {
    if steps == [] {
      Runs.InitHolds(key);
    } else {
      var mid := Execute(env, Init(key), steps[..|steps| - 1]).value;
      RunsAlways(env, key, steps[..|steps| - 1], mid);
      assert Reachable(env, mid);
      ReachableInv(env, mid);
      Runs.StepKeeps(env, mid, steps[|steps| - 1]);
    }
  }

  lemma ReachableRun(env: Env, s: State)
    requires Runs.Sound(env) && Reachable(env, s)
    ensures Runs.RunInv(s)
  {
    var key, steps :| Execute(env, Init(key), steps) == Some(s);
    RunsAlways(env, key, steps, s);
  }
}
