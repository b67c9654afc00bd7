/** What `notify` tells the caller, in the order it is told: reconnects that succeeded, and the stop. */
module Notices {
  import opened Prelude
  import opened Text
  import opened Core
  import opened Machine
  import Passes

  function Successes(notices: seq<Notice>): nat {
    if notices == [] then 0 else
      Successes(notices[..|notices| - 1]) + if notices[|notices| - 1].Restored? then 1 else 0
  }

  function Halts(notices: seq<Notice>): nat {
    if notices == [] then 0 else
      Halts(notices[..|notices| - 1]) + if notices[|notices| - 1].Stopped? then 1 else 0
  }

  lemma NoticeNext(notices: seq<Notice>, n: Notice)
    ensures Successes(notices + [n]) == Successes(notices) + if n.Restored? then 1 else 0
    ensures Halts(notices + [n]) == Halts(notices) + if n.Stopped? then 1 else 0
  {
    assert (notices + [n])[..|notices|] == notices;
  }

  // ---- the stop is told at most once, by a `run` that has ended ----

  predicate NoticeInv(s: State) {
    Halts(s.hist.notices) == 0 || (Halts(s.hist.notices) == 1 && s.run.End? && !s.run.e.Announcing?)
  }

  lemma InitHolds(key: Bytes)
    ensures NoticeInv(Init(key))
  {}

  lemma PassNotices(s: State, p: nat)
    requires PassNext(s, p).Some?
    ensures
      var s', pass := PassNext(s, p).value, s.passes[p];
      s'.hist.notices == s.hist.notices
        + if pass.pc.Notifying? then [Restored(pass.generation, pass.attempt, |pass.snapshot|)] else []
  {
    assert s.hist.notices + [] == s.hist.notices;
  }

  lemma EndStays(s: State, a: DialAct)
    requires DialNext(s, a).Some? && s.run.End?
    ensures
      var s' := DialNext(s, a).value;
      s'.run.End? && !s'.run.e.Announcing? && s'.core == s.core && s'.passes == s.passes
  {}

  lemma PassKeeps(s: State, p: nat)
    requires NoticeInv(s) && PassNext(s, p).Some?
    ensures NoticeInv(PassNext(s, p).value)
  {
    var pass := s.passes[p];
    PassNotices(s, p);
    NoticeNext(s.hist.notices, Restored(pass.generation, pass.attempt, |pass.snapshot|));
    assert s.hist.notices + [] == s.hist.notices;
  }

  lemma DialKeeps(s: State, a: DialAct)
    requires NoticeInv(s) && DialNext(s, a).Some?
    ensures NoticeInv(DialNext(s, a).value)
  {
    NoticeNext(s.hist.notices, Stopped(s.attempt));
    if s.run.End? {
      EndStays(s, a);
    }
  }

  lemma StepKeeps(env: Env, s: State, step: Step)
    requires NoticeInv(s) && Next(env, s, step).Some?
    ensures NoticeInv(Next(env, s, step).value)
  {
    match step
    case ReaderTurn(_) =>
    case DialTurn(a) => DialKeeps(s, a);
    case RequestTurn(_, _) =>
    case PassTurn(p) => PassKeeps(s, p);
    case CloseTurn(_) =>
    case Consume =>
    case Call(_, _) =>
  }

  // ---- what may still be told once `run` has ended ----

  /** The pass is past its last check, or can still pass it. */
  predicate MayReport(s: State, p: nat) {
    && p < |s.passes|
    && (s.passes[p].pc.Notifying?
        || (!s.core.closed && s.passes[p].generation == s.core.generation && !s.passes[p].pc.Finished?))
  }

  function Reporters(s: State): set<nat> {
    set p: nat | p < |s.passes| && MayReport(s, p)
  }

  /** Passes that have made their last check and not yet told. */
  function Telling(passes: seq<Pass>): set<nat> {
    set p: nat | p < |passes| && passes[p].pc.Notifying?
  }

  lemma SubsetSize(a: set<nat>, b: set<nat>)
    requires a <= b
    ensures |a| <= |b|
  {
    assert a + (b - a) == b;
  }

  /** Once closed only those can tell; before that, one more at most. */
  lemma FewReporters(s: State)
    requires Passes.PassInv(s)
    ensures |Reporters(s)| <= |Telling(s.passes)| + 1
    ensures s.core.closed ==> Reporters(s) == Telling(s.passes)
  {
    var all: set<nat> := Telling(s.passes) + if s.core.generation > 0 then {s.core.generation - 1} else {};
    forall p | p in Reporters(s) ensures p in all {
      assert Passes.PassOk(s.passes[p], p, s.reqs);
    }
    SubsetSize(Reporters(s), all);
  }

  /** Told so far, plus what may still be told. */
  function Budget(s: State): nat {
    Successes(s.hist.notices) + |Reporters(s)|
  }

  lemma PassReports(s: State, p: nat)
    requires PassNext(s, p).Some?
    ensures
      var s' := PassNext(s, p).value;
      && (MayReport(s', p) ==> MayReport(s, p))
      && (s.passes[p].pc.Notifying? ==> !MayReport(s', p))
      && s'.core == s.core
  {}

  lemma PassSpends(s: State, p: nat)
    requires PassNext(s, p).Some?
    ensures Budget(PassNext(s, p).value) <= Budget(s)
  {
    var s', pass := PassNext(s, p).value, s.passes[p];
    PassReports(s, p);
    PassNotices(s, p);
    NoticeNext(s.hist.notices, Restored(pass.generation, pass.attempt, |pass.snapshot|));
    assert s.hist.notices + [] == s.hist.notices;
    assert Reporters(s') <= Reporters(s) by {
      forall q | q in Reporters(s') ensures q in Reporters(s) {
        assert q != p ==> s'.passes[q] == s.passes[q];
      }
    }
    if pass.pc.Notifying? {
      assert p in Reporters(s) && Reporters(s') <= Reporters(s) - {p};
      SubsetSize(Reporters(s'), Reporters(s) - {p});
    } else {
      SubsetSize(Reporters(s'), Reporters(s));
    }
  }

  /** A turn of another party tells no success and gives nobody a new chance to. */
  lemma OthersSpend(s: State, s': State)
    requires s'.passes == s.passes && s'.core.generation == s.core.generation && (s.core.closed ==> s'.core.closed)
    requires Successes(s'.hist.notices) == Successes(s.hist.notices)
    ensures Budget(s') <= Budget(s)
  {
    assert Reporters(s') <= Reporters(s);
    SubsetSize(Reporters(s'), Reporters(s));
  }

  lemma StepSpends(env: Env, s: State, step: Step, s': State)
    requires s.run.End? && Next(env, s, step) == Some(s')
    ensures s'.run.End? && Budget(s') <= Budget(s)
  {
    match step
    case DialTurn(a) =>
      EndStays(s, a);
      NoticeNext(s.hist.notices, Stopped(s.attempt));
      OthersSpend(s, s');
    case PassTurn(p) => PassSpends(s, p);
    case RequestTurn(_, _) => OthersSpend(s, s');
    case CloseTurn(_) => OthersSpend(s, s');
    case Consume => OthersSpend(s, s');
    case Call(_, _) => OthersSpend(s, s');
  }

  lemma {:induction false} RunSpends(env: Env, s0: State, steps: seq<Step>, s: State)
    requires s0.run.End? && Execute(env, s0, steps) == Some(s)
    ensures s.run.End? && Budget(s) <= Budget(s0)
    decreases |steps|
  {
    if steps != [] {
      var mid := Execute(env, s0, steps[..|steps| - 1]).value;
      RunSpends(env, s0, steps[..|steps| - 1], mid);
      StepSpends(env, mid, steps[|steps| - 1], s);
    }
  }
}
