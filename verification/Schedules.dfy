/**
 * Reconnects and the schedules they are studied under: where one starts, what may happen during
 * it, and how a schedule is built up step by step.
 */
module Schedules {
  import opened Prelude
  import opened Text
  import opened Core
  import opened Machine

  /** What the reconnect started from. */
  datatype Setup = Setup(t: nat, key: Bytes, generation: nat, attempt: nat, subs: seq<Subscription>, base: nat,
                         notices: seq<Notice>)

  /** `redial` is about to install a socket while every earlier request and pass is over. */
  predicate Resting(s: State) {
    && s.run.Up? && s.run.u.Installing? && s.run.u.t < |s.socks| && s.socks[s.run.u.t].wire == []
    && s.core.pending == [] && !s.core.closed && s.closer.Idle? && !s.done && !s.stopped
    && |s.passes| == s.core.generation
    && (forall id :: 0 <= id < |s.reqs| ==> s.reqs[id].pc.Returned?)
    && (forall p :: 0 <= p < |s.passes| ==> s.passes[p].pc.Finished?)
  }

  function SetupOf(s: State): Setup
    requires Resting(s)
  {
    Setup(s.run.u.t, s.run.u.key, s.core.generation + 1, s.attempt, s.core.subs, |s.reqs|, s.hist.notices)
  }

  function Mine(q: Setup, passes: seq<Pass>): Pass
    requires 1 <= q.generation <= |passes|
  {
    passes[q.generation - 1]
  }

  // ---- what may happen ----

  datatype Course = Quiet | Rough

  /** No failure, no refusal, no other caller, no Close. */
  predicate QuietStep(env: Env, s: State, step: Step) {
    match step
    case ReaderTurn(DoReadError) => false
    case ReaderTurn(DoPong(ok)) => ok
    case ReaderTurn(DoJudge) =>
      s.run.Reader? && s.run.r.Handling? && s.run.r.raw.Ack? ==>
        env.verdict(Taken(s, s.run.r.raw.ack).1, s.run.r.raw.ack) == None
    case RequestTurn(_, DoWrite(ok, _)) => ok
    case RequestTurn(_, DoCancel) => false
    case CloseTurn(_) => false
    case Call(_, _) => false
    case _ => true
  }

  /** No other caller, no Close, and not yet another socket; anything else may happen, failures included. */
  predicate RoughStep(step: Step) {
    match step
    case DialTurn(DoInstall) => false
    case CloseTurn(_) => false
    case Call(_, _) => false
    case _ => true
  }

  predicate Permits(c: Course, env: Env, s: State, step: Step) {
    match c
    case Quiet => QuietStep(env, s, step)
    case Rough => RoughStep(step)
  }

  /** Every step of the schedule is possible and permitted. */
  predicate Run(c: Course, env: Env, s: State, steps: seq<Step>)
    decreases |steps|
  {
    steps == [] ||
      var front := steps[..|steps| - 1];
      && Run(c, env, s, front)
      && Execute(env, s, front).Some?
      && Permits(c, env, Execute(env, s, front).value, steps[|steps| - 1])
  }

  // ---- building a schedule ----

  /** What a schedule relies on: the pass is the current one, and in a quiet one the socket is up. */
  predicate Going(c: Course, q: Setup, s: State) {
    && !s.core.closed && s.core.generation == q.generation && q.t < |s.socks|
    && 1 <= q.generation <= |s.passes|
    && Mine(q, s.passes).generation == q.generation && Mine(q, s.passes).snapshot == q.subs
    && (c.Quiet? ==> s.core.transport == Some(q.t) && s.core.key == q.key)
    && (s.core.transport.Some? ==> s.core.transport == Some(q.t))
  }

  /** A permitted schedule leads from s0 to s. */
  predicate Leads(c: Course, env: Env, q: Setup, s0: State, steps: seq<Step>, s: State) {
    Run(c, env, s0, steps) && Execute(env, s0, steps) == Some(s) && Going(c, q, s)
  }

  lemma Go(c: Course, env: Env, q: Setup, s0: State, steps: seq<Step>, s: State, step: Step, s': State)
    requires Run(c, env, s0, steps) && Execute(env, s0, steps) == Some(s)
    requires Permits(c, env, s, step) && Next(env, s, step) == Some(s') && Going(c, q, s')
    ensures Leads(c, env, q, s0, steps + [step], s')
  {
    assert (steps + [step])[..|steps|] == steps;
  }

  lemma PassGoes(c: Course, env: Env, q: Setup, s0: State, steps: seq<Step>, s: State, s': State)
    requires Leads(c, env, q, s0, steps, s) && PassNext(s, q.generation - 1) == Some(s') && Going(c, q, s')
    ensures Leads(c, env, q, s0, steps + [PassTurn(q.generation - 1)], s')
  {
    Go(c, env, q, s0, steps, s, PassTurn(q.generation - 1), s');
  }

  lemma RequestGoes(c: Course, env: Env, q: Setup, s0: State, steps: seq<Step>, s: State, id: nat, a: RequestAct,
                    s': State)
    requires Leads(c, env, q, s0, steps, s) && RequestNext(s, id, a) == Some(s') && Going(c, q, s')
    requires c.Quiet? ==> !a.DoCancel? && (a.DoWrite? ==> a.ok)
    ensures Leads(c, env, q, s0, steps + [RequestTurn(id, a)], s')
  {
    Go(c, env, q, s0, steps, s, RequestTurn(id, a), s');
  }

  lemma ReaderGoes(c: Course, env: Env, q: Setup, s0: State, steps: seq<Step>, s: State, a: ReaderAct, s': State)
    requires Leads(c, env, q, s0, steps, s) && ReaderNext(env, s, a) == Some(s') && Going(c, q, s')
    requires c.Quiet? ==> QuietStep(env, s, ReaderTurn(a))
    ensures Leads(c, env, q, s0, steps + [ReaderTurn(a)], s')
  {
    Go(c, env, q, s0, steps, s, ReaderTurn(a), s');
  }

  lemma DialGoes(env: Env, q: Setup, s0: State, steps: seq<Step>, s: State, a: DialAct, s': State)
    requires Leads(Rough, env, q, s0, steps, s) && DialNext(s, a) == Some(s') && Going(Rough, q, s') && !a.DoInstall?
    ensures Leads(Rough, env, q, s0, steps + [DialTurn(a)], s')
  {
    Go(Rough, env, q, s0, steps, s, DialTurn(a), s');
  }
}
