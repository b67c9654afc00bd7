/**
 * Whom the death of a socket releases, and whom it may leave blocked: a request that has registered
 * when the read loop fails is released in every run, and one that has not may be stranded.
 */
module Stranding {
  import opened Prelude
  import opened Text
  import opened Protocol
  import opened Core
  import opened Machine
  import opened Waiters
  import opened Safety
  import opened Theorems
  import Passes

  // ---- released ----

  /** The read loop has failed and not yet emptied the list, or the request is out of the list. */
  predicate Releasable(s: State, id: nat) {
    && id < |s.reqs| && s.reqs[id].registered.Some?
    && ((s.run.Reader? && s.run.r.Failing?) || Left(s, id))
  }

  lemma FailStep(env: Env, s: State, a: ReaderAct, s': State, id: nat)
    requires Releasable(s, id) && s.run.Reader? && s.run.r.Failing? && ReaderNext(env, s, a) == Some(s')
    ensures Left(s', id)
  {}

  lemma RequestStaysRegistered(s: State, k: nat, a: RequestAct, id: nat)
    requires RequestNext(s, k, a).Some? && id < |s.reqs| && s.reqs[id].registered.Some?
    ensures RequestNext(s, k, a).value.reqs[id].registered.Some?
  {}

  lemma StepReleases(env: Env, s: State, step: Step, s': State, id: nat)
    requires RequestInv(s) && Next(env, s, step) == Some(s') && Releasable(s, id)
    ensures Releasable(s', id)
  {
    if Left(s, id) {
      StepLeaves(env, s, step, s', id);
    } else {
      match step
      case ReaderTurn(a) => FailStep(env, s, a, s', id);
      case RequestTurn(k, a) => RequestStaysRegistered(s, k, a, id);
      case PassTurn(p) => assert s'.reqs != s.reqs ==> s'.reqs[id] == s'.reqs[..|s.reqs|][id];
      case _ =>
    }
  }

  lemma {:induction false} RunReleases(env: Env, s0: State, steps: seq<Step>, s: State, id: nat)
    requires Reachable(env, s0) && Releasable(s0, id) && Execute(env, s0, steps) == Some(s)
    ensures Releasable(s, id)
    decreases |steps|
  {
    if steps != [] {
      var front := steps[..|steps| - 1];
      var mid := Execute(env, s0, front).value;
      RunReleases(env, s0, front, mid, id);
      ReachableLater(env, s0, front, mid);
      ReachableInv(env, mid);
      StepReleases(env, mid, steps[|steps| - 1], s, id);
    }
  }

  /**
   * No caller is left blocked on the dead socket: every request that has registered when the read
   * loop fails is off the list for good once `run` has left the loop, in any run, and if it is
   * still under way it holds its verdict.
   */
  lemma FailureReleasesAll(env: Env, s0: State, err: Fault, steps: seq<Step>, s: State, id: nat)
    requires Reachable(env, s0) && s0.run == Reader(Failing(err))
    requires id < |s0.reqs| && s0.reqs[id].registered.Some?
    requires Execute(env, s0, steps) == Some(s) && !s.run.Reader?
    ensures Left(s, id)
    ensures Outstanding(s.reqs[id].pc) ==> s.reqs[id].slot.Some?
  {
    RunReleases(env, s0, steps, s, id);
    ReachableLater(env, s0, steps, s);
    NoLostWakeup(env, s, id);
  }

  // ---- stranded ----

  /** Its socket is dead and hung up, and nothing but a later socket, its caller or the end of `run` releases it. */
  predicate Stranded(s: State, id: nat) {
    && !s.run.Reader? && s.core.transport.None? && id < |s.reqs|
    && s.reqs[id].pc.Waiting? && s.reqs[id].slot == None && HasId(s.core.pending, id)
  }

  /** From the moment the list has been emptied to the moment the socket is let go. */
  predicate Window(run: RunPc, err: Fault) {
    || (run.Reader? && run.r.Releasing? && run.r.err == err)
    || run == Down(Deciding(err)) || run == Down(Detaching(err))
  }

  /** A request that registers and writes in the window. */
  predicate LateStart(s: State, id: nat, err: Fault) {
    && Window(s.run, err) && s.core.transport.Some? && !s.core.closed
    && id < |s.reqs| && s.reqs[id].pc.Starting? && s.reqs[id].slot == None
  }

  /** It has been written on the dying socket and waits. */
  predicate LateWaiting(s: State, id: nat, err: Fault, t: nat) {
    && Window(s.run, err) && s.core.transport == Some(t) && t < |s.socks| && !s.core.closed
    && id < |s.reqs| && s.reqs[id].pc.Waiting? && s.reqs[id].slot == None && HasId(s.core.pending, id)
  }

  lemma ReadsOn(env: Env, a: State, s: State, act: ReaderAct, s': State)
    requires Reaches(env, a, s) && ReaderNext(env, s, act) == Some(s')
    ensures Reaches(env, a, s')
  {
    ReachesNext(env, a, s, ReaderTurn(act), s');
  }

  lemma DialsOn(env: Env, a: State, s: State, act: DialAct, s': State)
    requires Reaches(env, a, s) && DialNext(s, act) == Some(s')
    ensures Reaches(env, a, s')
  {
    ReachesNext(env, a, s, DialTurn(act), s');
  }

  lemma RequestsOn(env: Env, a: State, s: State, id: nat, act: RequestAct, s': State)
    requires Reaches(env, a, s) && RequestNext(s, id, act) == Some(s')
    ensures Reaches(env, a, s')
  {
    ReachesNext(env, a, s, RequestTurn(id, act), s');
  }

  lemma RegisterLate(env: Env, s: State, id: nat, err: Fault, t: nat) returns (s': State)
    requires Reachable(env, s) && LateStart(s, id, err) && s.core.transport == Some(t)
    ensures Reaches(env, s, s') && LateWaiting(s', id, err, t) && s'.run == s.run
  {
    ReachableSockets(env, s);
    ReachesSelf(env, s);
    var s1 := RegisterStep(s, id);
    RequestsOn(env, s, s, id, DoRegister, s1);
    AppendIds(s.core.pending, Waiter(id, s.reqs[id].sub.tr), id);
    s' := WriteOk(s1, id, t, s.core.key);
    RequestsOn(env, s, s1, id, DoWrite(true, true), s');
  }

  /** The reader goes on releasing the others. */
  lemma ReleaseOthers(env: Env, a: State, s: State, id: nat, err: Fault, t: nat) returns (s': State)
    requires Reachable(env, a) && Reaches(env, a, s) && LateWaiting(s, id, err, t) && s.run.Reader?
    ensures Reaches(env, a, s') && LateWaiting(s', id, err, t) && s'.run == Reader(Releasing([], err))
    decreases |s.run.r.waiters|
  {
    var ws := s.run.r.waiters;
    if ws == [] {
      s' := s;
    } else {
      ReachesReachable(env, a, s);
      ReleaseSpares(env, s, ws, id);
      var s1 := ReleaseOther(env, a, s, ws, id, err, t);
      s' := ReleaseOthers(env, a, s1, id, err, t);
    }
  }

  lemma ReleaseOther(env: Env, a: State, s: State, ws: seq<Waiter>, id: nat, err: Fault, t: nat) returns (s': State)
    requires Reaches(env, a, s) && LateWaiting(s, id, err, t)
    requires ws != [] && ws[0].id != id && s.run == Reader(Releasing(ws, err))
    ensures Reaches(env, a, s') && LateWaiting(s', id, err, t) && s'.run == Reader(Releasing(ws[1..], err))
  {
    ReleaseLeaves(s, ws, id, err, t);
    s' := Release(s, ws, err);
    ReadsOn(env, a, s, DoRelease, s');
  }

  lemma ReleaseLeaves(s: State, ws: seq<Waiter>, id: nat, err: Fault, t: nat)
    requires LateWaiting(s, id, err, t) && ws != [] && ws[0].id != id
    ensures LateWaiting(Release(s, ws, err), id, err, t)
  {}

  /** A listed request is none of those in the reader's hand. */
  lemma ReleaseSpares(env: Env, s: State, ws: seq<Waiter>, id: nat)
    requires Reachable(env, s) && s.run.Reader? && s.run.r.Releasing? && s.run.r.waiters == ws != []
    requires HasId(s.core.pending, id)
    ensures ws[0].id != id
  {
    ReachableWaiters(env, s);
    var k :| 0 <= k < |s.core.pending| && s.core.pending[k].id == id;
    assert Hand(s.run) == ws;
  }

  lemma LetGo(env: Env, a: State, s: State, id: nat, err: Fault, t: nat) returns (s': State)
    requires Reaches(env, a, s) && LateWaiting(s, id, err, t) && s.run == Down(Detaching(err))
    ensures Reaches(env, a, s') && Stranded(s', id) && t < |s'.socks| && s'.socks[t].closed
    ensures s'.run == AfterHangUp(err)
  {
    var s1 := DropTransport(s, err);
    DialsOn(env, a, s, DoDropTransport, s1);
    s' := HangUp(s1, Some(t), err);
    DialsOn(env, a, s1, DoHangUp, s');
  }

  lemma DecideLate(env: Env, a: State, s: State, id: nat, err: Fault, t: nat) returns (s': State)
    requires Reaches(env, a, s) && LateWaiting(s, id, err, t) && s.run == Down(Deciding(err))
    ensures Reaches(env, a, s') && Stranded(s', id) && t < |s'.socks| && s'.socks[t].closed
    ensures s'.run == AfterHangUp(err)
  {
    var s1 := Decide(s, err);
    DialsOn(env, a, s, DoDecide, s1);
    s' := LetGo(env, a, s1, id, err, t);
  }

  lemma LeaveLate(env: Env, a: State, s: State, id: nat, err: Fault, t: nat) returns (s': State)
    requires Reaches(env, a, s) && LateWaiting(s, id, err, t) && s.run == Reader(Releasing([], err))
    ensures Reaches(env, a, s') && Stranded(s', id) && t < |s'.socks| && s'.socks[t].closed
    ensures s'.run == AfterHangUp(err)
  {
    var s1 := Leave(s, err);
    ReadsOn(env, a, s, DoLeave, s1);
    s' := DecideLate(env, a, s1, id, err, t);
  }

  /**
   * A request that registers and writes between `failPending` and `dropTransport` can always be
   * left blocked on a socket that is gone: it waits, still listed and without a verdict.
   */
  lemma LateWaiterOutlivesSocket(env: Env, s: State, id: nat, err: Fault) returns (s': State)
    requires Reachable(env, s) && LateStart(s, id, err)
    ensures Reaches(env, s, s') && Stranded(s', id) && s'.run == AfterHangUp(err)
    ensures s.core.transport.value < |s'.socks| && s'.socks[s.core.transport.value].closed
  {
    var t := s.core.transport.value;
    var s1 := RegisterLate(env, s, id, err, t);
    if s1.run.Reader? {
      var s2 := ReleaseOthers(env, s, s1, id, err, t);
      s' := LeaveLate(env, s, s2, id, err, t);
    } else if s1.run.d.Deciding? {
      s' := DecideLate(env, s, s1, id, err, t);
    } else {
      s' := LetGo(env, s, s1, id, err, t);
    }
  }

  // ---- exactly those ----

  /** A request that has been turned away, or will be. */
  predicate Shut(s: State, id: nat) {
    id < |s.reqs| && (s.reqs[id].pc.Returned? || (s.reqs[id].pc.Starting? && s.core.closed))
  }

  lemma RequestStaysShut(s: State, k: nat, a: RequestAct, id: nat)
    requires RequestNext(s, k, a).Some? && Shut(s, id)
    ensures Shut(RequestNext(s, k, a).value, id)
  {}

  lemma StepStaysShut(env: Env, s: State, step: Step, s': State, id: nat)
    requires Next(env, s, step) == Some(s') && Shut(s, id)
    ensures Shut(s', id)
  {
    match step
    case RequestTurn(k, a) => RequestStaysShut(s, k, a, id);
    case PassTurn(p) => assert s'.reqs != s.reqs ==> s'.reqs[id] == s'.reqs[..|s.reqs|][id];
    case _ =>
  }

  lemma {:induction false} StaysShut(env: Env, s0: State, steps: seq<Step>, s: State, id: nat)
    requires Shut(s0, id) && Execute(env, s0, steps) == Some(s)
    ensures Shut(s, id)
    decreases |steps|
  {
    if steps != [] {
      var mid := Execute(env, s0, steps[..|steps| - 1]).value;
      StaysShut(env, s0, steps[..|steps| - 1], mid, id);
      StepStaysShut(env, mid, steps[|steps| - 1], s, id);
    }
  }

  lemma NeverStranded(env: Env, s: State, err: Fault, id: nat, s': State)
    requires Reachable(env, s) && s.run == Reader(Failing(err)) && id < |s.reqs| && Reaches(env, s, s')
    requires !s.reqs[id].pc.Starting? || s.core.closed
    ensures !Stranded(s', id)
  {
    var steps :| Execute(env, s, steps) == Some(s');
    ReachablePasses(env, s);
    assert Passes.RequestOk(s.reqs[id], s.core.generation, s.core.closed);
    if s.reqs[id].registered.Some? {
      RunReleases(env, s, steps, s', id);
    } else {
      StaysShut(env, s, steps, s', id);
    }
  }

  lemma MayBeStranded(env: Env, s: State, err: Fault, id: nat) returns (s': State)
    requires Reachable(env, s) && s.run == Reader(Failing(err)) && id < |s.reqs|
    requires s.reqs[id].pc.Starting? && !s.core.closed
    ensures Reaches(env, s, s') && Stranded(s', id)
  {
    ReachableSockets(env, s);
    ReachableWaiters(env, s);
    assert Accounted(s.core.pending, Hand(s.run), id, s.reqs[id]);
    var s1 := FailAll(s, err);
    ReachesSelf(env, s);
    ReadsOn(env, s, s, DoFailAll, s1);
    ReachesReachable(env, s, s1);
    s' := LateWaiterOutlivesSocket(env, s1, id, err);
    ReachesOn(env, s, s1, s');
  }

  /**
   * When the read loop fails, exactly those requests are at risk that have not registered yet, and
   * none if the connection is closed: they can be stranded in some run, all others in none.
   */
  lemma StrandedExactly(env: Env, s: State, err: Fault, id: nat)
    requires Reachable(env, s) && s.run == Reader(Failing(err)) && id < |s.reqs|
    ensures (exists s' :: Reaches(env, s, s') && Stranded(s', id)) <==> s.reqs[id].pc.Starting? && !s.core.closed
  {
    if s.reqs[id].pc.Starting? && !s.core.closed {
      var s' := MayBeStranded(env, s, err, id);
    } else {
      forall s' | Reaches(env, s, s') ensures !Stranded(s', id) {
        NeverStranded(env, s, err, id, s');
      }
    }
  }
}
