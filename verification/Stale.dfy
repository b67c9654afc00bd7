/**
 * When a pass whose generation is over is done with the wire: exactly if it has no request that is
 * yet to register and is not just about to issue one.
 */
module Stale {
  import opened Prelude
  import opened Text
  import opened Core
  import opened Machine
  import opened Safety
  import Passes

  predicate OwnedBy(r: Request, p: nat) {
    r.owner == PassOf(p)
  }

  /** The pass has no request that is yet to register and is not just about to issue one. */
  predicate Spent(s: State, p: nat)
    requires p < |s.passes|
  {
    && !s.passes[p].pc.Issuing?
    && forall id :: 0 <= id < |s.reqs| && OwnedBy(s.reqs[id], p) ==> !s.reqs[id].pc.Starting?
  }

  /** The pass's generation is over, and it is spent or nothing registers any more. */
  predicate Over(s: State, p: nat) {
    p < |s.passes| && s.passes[p].generation < s.core.generation && (s.core.closed || Spent(s, p))
  }

  /** Of the pass's requests only those are registered in b that were in a. */
  predicate NothingNew(a: State, b: State, p: nat) {
    forall id :: 0 <= id < |b.reqs| && OwnedBy(b.reqs[id], p) && b.reqs[id].registered.Some? ==>
      id < |a.reqs| && OwnedBy(a.reqs[id], p) && a.reqs[id].registered.Some?
  }

  /** No schedule registers another request of the pass. */
  ghost predicate NoneRegisters(env: Env, s: State, p: nat) {
    forall s' :: Reaches(env, s, s') ==> NothingNew(s, s', p)
  }

  // ---- spent for good ----

  lemma RequestEffect(s: State, id: nat, a: RequestAct)
    requires RequestNext(s, id, a).Some?
    ensures
      var r, r' := s.reqs[id], RequestNext(s, id, a).value.reqs[id];
      && !r'.pc.Starting?
      && (r'.registered.Some? ==> r.registered.Some? || (r.pc.Starting? && !s.core.closed))
  {
    if !a.DoRegister? {
      LaterEffect(s, id, a);
    }
  }

  lemma LaterEffect(s: State, id: nat, a: RequestAct)
    requires RequestNext(s, id, a).Some? && !a.DoRegister?
    ensures
      var r, r' := s.reqs[id], RequestNext(s, id, a).value.reqs[id];
      !r'.pc.Starting? && r'.registered == r.registered
  {}

  lemma RequestKeeps(s: State, id: nat, a: RequestAct, p: nat)
    requires Over(s, p) && RequestNext(s, id, a).Some?
    ensures Over(RequestNext(s, id, a).value, p) && NothingNew(s, RequestNext(s, id, a).value, p)
  {
    var s' := RequestNext(s, id, a).value;
    RequestEffect(s, id, a);
    assert forall k :: 0 <= k < |s.reqs| && k != id ==> s'.reqs[k] == s.reqs[k];
  }

  /** A stale pass issues at most the request it is about to issue, and never comes to issue another. */
  lemma PassEffect(s: State, p: nat)
    requires PassNext(s, p).Some? && s.passes[p].generation < s.core.generation && !s.passes[p].pc.Issuing?
    ensures
      var s' := PassNext(s, p).value;
      s'.reqs == s.reqs && !s'.passes[p].pc.Issuing?
  {}

  lemma PassKeeps(s: State, k: nat, p: nat)
    requires Over(s, p) && PassNext(s, k).Some?
    ensures Over(PassNext(s, k).value, p) && NothingNew(s, PassNext(s, k).value, p)
  {
    var s' := PassNext(s, k).value;
    assert s'.reqs != s.reqs ==> forall id :: 0 <= id < |s.reqs| ==> s'.reqs[id] == s'.reqs[..|s.reqs|][id];
    if k == p && !s.core.closed {
      PassEffect(s, p);
    }
  }

  lemma DialEffect(s: State, a: DialAct)
    requires DialNext(s, a).Some?
    ensures var s' := DialNext(s, a).value; s.passes <= s'.passes && s.core.generation <= s'.core.generation
  {
    Passes.DialLists(s, a);
    if !a.DoInstall? {
      Passes.DialKeepsPasses(s, a);
    }
  }

  lemma DialKeeps(s: State, a: DialAct, p: nat)
    requires Over(s, p) && DialNext(s, a).Some?
    ensures Over(DialNext(s, a).value, p) && NothingNew(s, DialNext(s, a).value, p)
  {
    DialEffect(s, a);
  }

  lemma StepKeeps(env: Env, s: State, step: Step, s': State, p: nat)
    requires Over(s, p) && Next(env, s, step) == Some(s')
    ensures Over(s', p) && NothingNew(s, s', p)
  {
    match step
    case ReaderTurn(_) =>
    case DialTurn(a) => DialKeeps(s, a, p);
    case RequestTurn(id, a) => RequestKeeps(s, id, a, p);
    case PassTurn(k) => PassKeeps(s, k, p);
    case CloseTurn(_) =>
    case Consume =>
    case Call(_, _) =>
  }

  lemma {:induction false} StaysOver(env: Env, s0: State, steps: seq<Step>, s: State, p: nat)
    requires Over(s0, p) && Execute(env, s0, steps) == Some(s)
    ensures Over(s, p) && NothingNew(s0, s, p)
    decreases |steps|
  {
    if steps != [] {
      var mid := Execute(env, s0, steps[..|steps| - 1]).value;
      StaysOver(env, s0, steps[..|steps| - 1], mid, p);
      StepKeeps(env, mid, steps[|steps| - 1], s, p);
    }
  }

  // ---- not yet spent ----

  /** A request of the pass that has not registered registers on the next socket's watch. */
  lemma RegisterNew(env: Env, s0: State, s: State, p: nat, id: nat) returns (s': State)
    requires Reaches(env, s0, s) && id < |s.reqs| && s.reqs[id].pc.Starting? && OwnedBy(s.reqs[id], p) && !s.core.closed
    requires id < |s0.reqs| ==> s0.reqs[id].registered.None?
    ensures Reaches(env, s0, s') && !NothingNew(s0, s', p)
  {
    s' := RegisterStep(s, id);
    ReachesNext(env, s0, s, RequestTurn(id, DoRegister), s');
    assert OwnedBy(s'.reqs[id], p) && s'.reqs[id].registered.Some?;
  }

  lemma RegistersAnother(env: Env, s: State, p: nat) returns (s': State)
    requires Reachable(env, s) && p < |s.passes| && !s.core.closed && !Spent(s, p)
    ensures Reaches(env, s, s') && !NothingNew(s, s', p)
  {
    ReachesSelf(env, s);
    ReachablePasses(env, s);
    if s.passes[p].pc.Issuing? {
      assert Passes.PassOk(s.passes[p], p, s.reqs);
      var s1 := Issue(s, p, s.passes[p].pc.i);
      ReachesNext(env, s, s, PassTurn(p), s1);
      s' := RegisterNew(env, s, s1, p, |s.reqs|);
    } else {
      var id :| 0 <= id < |s.reqs| && OwnedBy(s.reqs[id], p) && s.reqs[id].pc.Starting?;
      assert Passes.RequestOk(s.reqs[id], s.core.generation, s.core.closed);
      s' := RegisterNew(env, s, s, p, id);
    }
  }

  /** Once its generation is over, a pass registers no further request exactly if it is spent or all is closed. */
  lemma SpentExactly(env: Env, s: State, p: nat)
    requires Reachable(env, s) && p < |s.passes| && s.passes[p].generation != s.core.generation
    ensures NoneRegisters(env, s, p) <==> s.core.closed || Spent(s, p)
  {
    ReachablePasses(env, s);
    assert Passes.PassOk(s.passes[p], p, s.reqs);
    if s.core.closed || Spent(s, p) {
      forall s' | Reaches(env, s, s') ensures NothingNew(s, s', p) {
        var steps :| Execute(env, s, steps) == Some(s');
        StaysOver(env, s, steps, s', p);
      }
    } else {
      var s' := RegistersAnother(env, s, p);
    }
  }
}
