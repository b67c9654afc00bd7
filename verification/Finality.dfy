/**
 * When a stop is final: no further success is told after `run` has ended exactly if no pass can
 * still come to its notification.
 */
module Finality {
  import opened Prelude
  import opened Text
  import opened Core
  import opened Machine
  import opened Safety
  import opened Notices
  import opened Lasting
  import Passes

  /** No schedule tells another success. */
  ghost predicate NoneFollows(env: Env, s0: State) {
    forall s :: Reaches(env, s0, s) ==> Successes(s.hist.notices) <= Successes(s0.hist.notices)
  }

  // ---- a pass that may report does report in some run ----

  /** s' is a state in which pass p is about to tell its success, with nothing told on the way there. */
  ghost predicate ComesToTell(env: Env, s: State, s': State, p: nat) {
    Reaches(env, s, s') && p < |s'.passes| && s'.passes[p].pc.Notifying? && s'.hist.notices == s.hist.notices
  }

  lemma PassReaches(env: Env, s: State, p: nat, s1: State)
    requires PassNext(s, p) == Some(s1)
    ensures Reaches(env, s, s1)
  {
    ReachesSelf(env, s);
    ReachesNext(env, s, s, PassTurn(p), s1);
  }

  lemma ThenTells(env: Env, s: State, s1: State, s': State, p: nat)
    requires Reaches(env, s, s1) && s1.hist.notices == s.hist.notices && ComesToTell(env, s1, s', p)
    ensures ComesToTell(env, s, s', p)
  {
    ReachesOn(env, s, s1, s');
  }

  lemma TellFromChecking(env: Env, s: State, p: nat, i: nat) returns (s': State)
    requires OnCourse(s, p) && s.passes[p].pc == Checking(i) && i <= |s.passes[p].snapshot|
    ensures ComesToTell(env, s, s', p)
    decreases |s.passes[p].snapshot| - i, 2
  {
    var s1 := Check(s, p, i);
    PassReaches(env, s, p, s1);
    if i == |s.passes[p].snapshot| {
      s' := s1;
    } else {
      s' := TellFromIssuing(env, s1, p, i);
      ThenTells(env, s, s1, s', p);
    }
  }

  lemma TellFromIssuing(env: Env, s: State, p: nat, i: nat) returns (s': State)
    requires OnCourse(s, p) && s.passes[p].pc == Issuing(i) && i < |s.passes[p].snapshot|
    ensures ComesToTell(env, s, s', p)
    decreases |s.passes[p].snapshot| - i, 1
  {
    var s1 := Issue(s, p, i);
    PassReaches(env, s, p, s1);
    s' := TellFromAwaiting(env, s1, p, i, |s.reqs|);
    ThenTells(env, s, s1, s', p);
  }

  lemma TellFromAwaiting(env: Env, s: State, p: nat, i: nat, id: nat) returns (s': State)
    requires OnCourse(s, p) && s.passes[p].pc == Awaiting(i, id) && id < |s.reqs| && i < |s.passes[p].snapshot|
    ensures ComesToTell(env, s, s', p)
    decreases |s.passes[p].snapshot| - i, 0
  {
    var s1 := Finish(env, s, id);
    var failed := s1.reqs[id].pc.result.Some?;
    var s2 := Resume(s1, p, i, failed);
    PassReaches(env, s1, p, s2);
    ReachesOn(env, s, s1, s2);
    if failed {
      s' := TellFromRechecking(env, s2, p, i);
    } else {
      s' := TellFromChecking(env, s2, p, i + 1);
    }
    ThenTells(env, s, s2, s', p);
  }

  lemma Finish(env: Env, s: State, id: nat) returns (s': State)
    requires id < |s.reqs|
    ensures Reaches(env, s, s') && |s'.reqs| == |s.reqs| && s'.reqs[id].pc.Returned?
    ensures s'.passes == s.passes && s'.core.closed == s.core.closed && s'.core.generation == s.core.generation
    ensures s'.hist.notices == s.hist.notices
  {
    var steps;
    steps, s' := FinishRequest(env, s, [], s, id, Subscription([], []));
  }

  lemma TellFromRechecking(env: Env, s: State, p: nat, i: nat) returns (s': State)
    requires OnCourse(s, p) && s.passes[p].pc == Rechecking(i) && i < |s.passes[p].snapshot|
    ensures ComesToTell(env, s, s', p)
    decreases |s.passes[p].snapshot| - (i + 1), 3
  {
    var s1 := Recheck(s, p, i);
    PassReaches(env, s, p, s1);
    s' := TellFromChecking(env, s1, p, i + 1);
    ThenTells(env, s, s1, s', p);
  }

  /** Every pass that may report has a schedule to its notification. */
  lemma MayReportTells(env: Env, s: State, p: nat) returns (s': State)
    requires Reachable(env, s) && MayReport(s, p)
    ensures ComesToTell(env, s, s', p)
  {
    ReachablePasses(env, s);
    assert Passes.PassOk(s.passes[p], p, s.reqs);
    match s.passes[p].pc
    case Snapshotting =>
      var s1 := Snapshot(s, p);
      PassReaches(env, s, p, s1);
      s' := TellFromChecking(env, s1, p, 0);
      ThenTells(env, s, s1, s', p);
    case Checking(i) => s' := TellFromChecking(env, s, p, i);
    case Issuing(i) => s' := TellFromIssuing(env, s, p, i);
    case Awaiting(i, id) =>
      assert Passes.Restores(s.passes[p], p, s.reqs, i);
      s' := TellFromAwaiting(env, s, p, i, id);
    case Rechecking(i) => s' := TellFromRechecking(env, s, p, i);
    case Notifying => s' := s; ReachesSelf(env, s);
  }

  /** And so one more success. */
  lemma OneMoreFollows(env: Env, s: State, p: nat) returns (s': State)
    requires Reachable(env, s) && MayReport(s, p)
    ensures Reaches(env, s, s') && Successes(s'.hist.notices) == Successes(s.hist.notices) + 1
  {
    var s1 := MayReportTells(env, s, p);
    s' := Notify(s1, p);
    PassReaches(env, s1, p, s');
    ReachesOn(env, s, s1, s');
    NoticeNext(s1.hist.notices, Restored(s1.passes[p].generation, s1.passes[p].attempt, |s1.passes[p].snapshot|));
  }

  /** Once `run` has ended no further success follows exactly if no pass may still report. */
  lemma FinalExactly(env: Env, s: State)
    requires Reachable(env, s) && s.run.End?
    ensures NoneFollows(env, s) <==> Reporters(s) == {}
  {
    if Reporters(s) == {} {
      forall s' | Reaches(env, s, s') ensures Successes(s'.hist.notices) <= Successes(s.hist.notices) {
        var steps :| Execute(env, s, steps) == Some(s');
        RunSpends(env, s, steps, s');
      }
    } else {
      var p :| p in Reporters(s);
      var s' := OneMoreFollows(env, s, p);
    }
  }
}
