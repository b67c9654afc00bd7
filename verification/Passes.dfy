/** What a resubscribe pass issues, in which order and for which generation, and what it reports. */
module Passes {
  import opened Prelude
  import opened Text
  import opened Protocol
  import opened Core
  import opened Machine

  /** A request is unregistered only before it starts or because the connection was closed. */
  predicate RequestOk(r: Request, generation: nat, closed: bool) {
    && (r.registered.Some? ==> r.registered.value <= generation && !r.pc.Starting?)
    && (r.registered.None? ==> r.pc.Starting? || (r.pc == Returned(Some(ConnClosed)) && closed))
  }

  /** Issued request j of a pass restores entry j of its snapshot. */
  predicate Restores(pass: Pass, p: nat, reqs: seq<Request>, j: nat)
    requires j < |pass.ids|
  {
    && j < |pass.snapshot|
    && pass.ids[j] < |reqs|
    && reqs[pass.ids[j]].owner == PassOf(p) && reqs[pass.ids[j]].subscribe
    && reqs[pass.ids[j]].sub == pass.snapshot[j]
    && (reqs[pass.ids[j]].registered.Some? ==> reqs[pass.ids[j]].registered.value >= pass.generation)
  }

  predicate OnTime(pass: Pass, reqs: seq<Request>, j: nat) {
    j < |pass.ids| && pass.ids[j] < |reqs| && reqs[pass.ids[j]].registered == Some(pass.generation)
  }

  predicate Registered(pass: Pass, reqs: seq<Request>, j: nat) {
    j < |pass.ids| && pass.ids[j] < |reqs| && reqs[pass.ids[j]].registered.Some?
  }

  predicate HasReturned(pass: Pass, reqs: seq<Request>, j: nat) {
    j < |pass.ids| && pass.ids[j] < |reqs| && reqs[pass.ids[j]].pc.Returned?
  }

  /** How many requests each point of the pass has issued. */
  predicate IssuedSoFar(pass: Pass) {
    match pass.pc
    case Snapshotting => pass.ids == []
    case Checking(i) => |pass.ids| == i <= |pass.snapshot|
    case Issuing(i) => |pass.ids| == i < |pass.snapshot|
    case Awaiting(i, id) => |pass.ids| == i + 1 <= |pass.snapshot| && pass.ids[i] == id
    case Rechecking(i) => |pass.ids| == i + 1 <= |pass.snapshot|
    case Notifying => |pass.ids| == |pass.snapshot|
    case Finished(reported) => |pass.ids| <= |pass.snapshot| && (reported ==> |pass.ids| == |pass.snapshot|)
  }

  /** How many of the issued requests are known to have entered `pending` in the pass's own generation. */
  function Settled(pass: Pass): nat {
    if pass.pc.Issuing? || pass.pc.Notifying? || pass.pc == Finished(true) then |pass.ids|
    else if pass.ids == [] then 0
    else |pass.ids| - 1
  }

  predicate PassOk(pass: Pass, p: nat, reqs: seq<Request>) {
    && pass.generation == p + 1
    && IssuedSoFar(pass)
    && (forall j :: 0 <= j < |pass.ids| ==> Restores(pass, p, reqs, j))
    && (forall j, k :: 0 <= j < k < |pass.ids| ==> pass.ids[j] < pass.ids[k])
    && (forall j :: 0 <= j < Settled(pass) ==> OnTime(pass, reqs, j))
    && (pass.pc.Checking? && pass.pc.i > 0 ==> Registered(pass, reqs, pass.pc.i - 1))
    && (pass.pc.Rechecking? ==> HasReturned(pass, reqs, pass.pc.i))
  }

  /** The notice is the success report of a pass that has sent it. */
  predicate NoticeOk(notice: Notice, passes: seq<Pass>) {
    notice.Restored? ==>
      && 1 <= notice.generation <= |passes|
      && passes[notice.generation - 1].pc == Finished(true)
      && notice.attempt == passes[notice.generation - 1].attempt
      && notice.restored == |passes[notice.generation - 1].snapshot|
  }

  predicate NoticesOk(notices: seq<Notice>, passes: seq<Pass>) {
    && (forall i :: 0 <= i < |notices| ==> NoticeOk(notices[i], passes))
    && (forall i, j :: 0 <= i < j < |notices| && notices[i].Restored? && notices[j].Restored? ==>
          notices[i].generation != notices[j].generation)
  }

  predicate PassInv(s: State) {
    && |s.passes| == s.core.generation
    && (forall id :: 0 <= id < |s.reqs| ==> RequestOk(s.reqs[id], s.core.generation, s.core.closed))
    && (forall p :: 0 <= p < |s.passes| ==> PassOk(s.passes[p], p, s.reqs))
    && NoticesOk(s.hist.notices, s.passes)
  }

  lemma InitHolds(key: Bytes)
    ensures PassInv(Init(key))
  {}

  /** Nothing about a pass depends on verdicts or on requests it did not issue. */
  lemma PassOkFrame(pass: Pass, p: nat, reqs: seq<Request>, reqs': seq<Request>)
    requires PassOk(pass, p, reqs) && |reqs| <= |reqs'|
    requires forall i :: 0 <= i < |reqs| ==>
               reqs'[i].owner == reqs[i].owner && reqs'[i].subscribe == reqs[i].subscribe && reqs'[i].sub == reqs[i].sub
               && (reqs'[i].registered == reqs[i].registered
                   || (reqs[i].registered.None? && reqs'[i].registered.Some?
                       && reqs'[i].registered.value >= pass.generation))
               && (reqs[i].pc.Returned? ==> reqs'[i].pc.Returned?)
    ensures PassOk(pass, p, reqs')
  {
    forall j | 0 <= j < |pass.ids| ensures Restores(pass, p, reqs', j) {
      assert Restores(pass, p, reqs, j);
    }
    forall j | 0 <= j < Settled(pass) ensures OnTime(pass, reqs', j) {
      assert OnTime(pass, reqs, j);
    }
    if pass.pc.Rechecking? {
      assert Restores(pass, p, reqs, pass.pc.i);
    }
  }

  lemma ReaderKeeps(s: State, s': State)
    requires PassInv(s) && ReaderFrame(s, s')
    ensures PassInv(s')
  {
    forall p | 0 <= p < |s.passes| ensures PassOk(s'.passes[p], p, s'.reqs) {
      PassOkFrame(s.passes[p], p, s.reqs, s'.reqs);
    }
  }

  lemma CloseKeeps(s: State, s': State)
    requires PassInv(s) && CloseFrame(s, s')
    ensures PassInv(s')
  {}

  lemma InstallKeeps(s: State, key: Bytes, t: nat)
    requires PassInv(s) && t < |s.socks| && !s.core.closed
    ensures PassInv(InstallStep(s, key, t))
  {}

  lemma DialKeepsPasses(s: State, a: DialAct)
    requires DialNext(s, a).Some? && !a.DoInstall?
    ensures var s' := DialNext(s, a).value; s'.passes == s.passes && s'.core.generation == s.core.generation
  {
    if s.run.Down? {
      DownKeepsPasses(s, a);
    }
  }

  lemma DownKeepsPasses(s: State, a: DialAct)
    requires DialNext(s, a).Some? && s.run.Down?
    ensures var s' := DialNext(s, a).value; s'.passes == s.passes && s'.core.generation == s.core.generation
  {}

  lemma DialKeeps(s: State, a: DialAct)
    requires PassInv(s) && DialNext(s, a).Some?
    ensures PassInv(DialNext(s, a).value)
  {
    if a.DoInstall? {
      if !s.core.closed {
        InstallKeeps(s, s.run.u.key, s.run.u.t);
      }
    } else {
      DialKeepsPasses(s, a);
    }
  }

  /** A request changes its registration once, to the current generation, and never un-returns. */
  predicate RequestMoves(s: State, s': State, id: nat)
    requires RequestFrame(s, s', id)
  {
    var r, r' := s.reqs[id], s'.reqs[id];
    && (r'.registered == r.registered || (r.registered.None? && r'.registered == Some(s.core.generation)))
    && !r.pc.Returned? && !r'.pc.Starting?
    && (r.pc.Starting? ==> r'.registered.Some? || (r'.pc == Returned(Some(ConnClosed)) && s.core.closed))
  }

  lemma RequestEffect(s: State, id: nat, a: RequestAct)
    requires RequestNext(s, id, a).Some? && RequestOk(s.reqs[id], s.core.generation, s.core.closed)
    ensures RequestMoves(s, RequestNext(s, id, a).value, id)
  {}

  lemma RequestKeeps(s: State, s': State, id: nat)
    requires PassInv(s) && RequestFrame(s, s', id) && RequestMoves(s, s', id)
    ensures PassInv(s')
  {
    forall p | 0 <= p < |s.passes| ensures PassOk(s'.passes[p], p, s'.reqs) {
      PassOkFrame(s.passes[p], p, s.reqs, s'.reqs);
    }
    assert RequestOk(s.reqs[id], s.core.generation, s.core.closed);
  }

  lemma AppendKeeps(s: State, s': State)
    requires PassInv(s) && |s'.reqs| == |s.reqs| + 1 && s'.reqs[..|s.reqs|] == s.reqs
    requires s'.reqs[|s.reqs|].registered.None? && s'.reqs[|s.reqs|].pc.Starting?
    requires s'.core == s.core && s'.passes == s.passes && s'.hist.notices == s.hist.notices
    ensures PassInv(s')
  {
    assert forall i :: 0 <= i < |s.reqs| ==> s'.reqs[i] == s.reqs[i];
    forall p | 0 <= p < |s.passes| ensures PassOk(s'.passes[p], p, s'.reqs) {
      PassOkFrame(s.passes[p], p, s.reqs, s'.reqs);
    }
  }

  // ---- the pass's own steps ----

  /** Reading the generation: if it has not moved, the last request entered `pending` in it. */
  lemma LastOnTime(pass: Pass, p: nat, reqs: seq<Request>, generation: nat, closed: bool)
    requires PassOk(pass, p, reqs) && pass.generation == generation && pass.ids != []
    requires Registered(pass, reqs, |pass.ids| - 1)
    requires RequestOk(reqs[pass.ids[|pass.ids| - 1]], generation, closed)
    ensures OnTime(pass, reqs, |pass.ids| - 1)
  {
    assert Restores(pass, p, reqs, |pass.ids| - 1);
  }

  lemma CheckKeeps(s: State, p: nat, i: nat)
    requires PassInv(s) && p < |s.passes| && s.passes[p].pc == Checking(i)
    ensures PassOk(Check(s, p, i).passes[p], p, s.reqs)
  {
    var pass := s.passes[p];
    assert PassOk(pass, p, s.reqs);
    if !GenerationChanged(s.core, pass.generation) && i > 0 {
      LastOnTime(pass, p, s.reqs, s.core.generation, s.core.closed);
    }
    SameRecord(pass, Check(s, p, i).passes[p], p, s.reqs);
  }

  lemma RecheckKeeps(s: State, p: nat, i: nat)
    requires PassInv(s) && p < |s.passes| && s.passes[p].pc == Rechecking(i)
    ensures PassOk(Recheck(s, p, i).passes[p], p, s.reqs)
  {
    var pass := s.passes[p];
    assert PassOk(pass, p, s.reqs);
    assert Restores(pass, p, s.reqs, i);
    assert RequestOk(s.reqs[pass.ids[i]], s.core.generation, s.core.closed);
    SameRecord(pass, Recheck(s, p, i).passes[p], p, s.reqs);
  }

  lemma ResumeKeeps(s: State, p: nat, i: nat, id: nat)
    requires PassInv(s) && p < |s.passes| && s.passes[p].pc == Awaiting(i, id)
    requires id < |s.reqs| && s.reqs[id].pc.Returned?
    ensures PassOk(Resume(s, p, i, s.reqs[id].pc.result.Some?).passes[p], p, s.reqs)
  {
    var pass := s.passes[p];
    assert PassOk(pass, p, s.reqs);
    assert RequestOk(s.reqs[id], s.core.generation, s.core.closed);
    SameRecord(pass, Resume(s, p, i, s.reqs[id].pc.result.Some?).passes[p], p, s.reqs);
  }

  /** Moving on without issuing keeps everything but the point reached. */
  lemma SameRecord(pass: Pass, pass': Pass, p: nat, reqs: seq<Request>)
    requires PassOk(pass, p, reqs) && pass' == pass.(pc := pass'.pc) && IssuedSoFar(pass')
    requires forall j :: Settled(pass) <= j < Settled(pass') ==> OnTime(pass, reqs, j)
    requires pass'.pc.Checking? && pass'.pc.i > 0 ==> Registered(pass, reqs, pass'.pc.i - 1)
    requires pass'.pc.Rechecking? ==> HasReturned(pass, reqs, pass'.pc.i)
    ensures PassOk(pass', p, reqs)
  {
    forall j | 0 <= j < |pass.ids| ensures Restores(pass', p, reqs, j) {
      assert Restores(pass, p, reqs, j);
    }
    forall j | 0 <= j < Settled(pass') ensures OnTime(pass', reqs, j) {
      assert OnTime(pass, reqs, j);
    }
  }

  lemma IssueKeeps(s: State, p: nat, i: nat)
    requires PassInv(s) && p < |s.passes| && s.passes[p].pc == Issuing(i) && i < |s.passes[p].snapshot|
    ensures PassOk(Issue(s, p, i).passes[p], p, Issue(s, p, i).reqs)
  {
    var pass, s' := s.passes[p], Issue(s, p, i);
    var pass' := s'.passes[p];
    assert PassOk(pass, p, s.reqs);
    forall j | 0 <= j < |pass'.ids| ensures Restores(pass', p, s'.reqs, j) {
      if j < i {
        assert Restores(pass, p, s.reqs, j);
      }
    }
    forall j | 0 <= j < i ensures OnTime(pass', s'.reqs, j) && pass'.ids[j] < |s.reqs| {
      assert OnTime(pass, s.reqs, j);
    }
  }

  lemma NotifyKeeps(s: State, p: nat)
    requires PassInv(s) && p < |s.passes| && s.passes[p].pc.Notifying?
    ensures PassInv(Notify(s, p))
  {
    var s' := Notify(s, p);
    assert PassOk(s.passes[p], p, s.reqs);
    SameRecord(s.passes[p], s'.passes[p], p, s.reqs);
    OthersKeep(s, s', p);
  }

  lemma OthersKeep(s: State, s': State, p: nat)
    requires PassInv(s) && PassFrame(s, s', p)
    ensures forall q :: 0 <= q < |s.passes| && q != p ==> PassOk(s'.passes[q], q, s'.reqs)
  {
    assert forall i :: 0 <= i < |s.reqs| ==> s'.reqs[i] == s.reqs[i] by {
      if s'.reqs != s.reqs {
        assert forall i :: 0 <= i < |s.reqs| ==> s'.reqs[i] == s'.reqs[..|s.reqs|][i];
      }
    }
    forall q | 0 <= q < |s.passes| && q != p ensures PassOk(s'.passes[q], q, s'.reqs) {
      PassOkFrame(s.passes[q], q, s.reqs, s'.reqs);
    }
  }

  /** A step of pass p that does not report keeps the invariant if it keeps that pass's record good. */
  lemma QuietPassKeeps(s: State, s': State, p: nat)
    requires PassInv(s) && PassFrame(s, s', p) && s'.hist.notices == s.hist.notices
    requires PassOk(s'.passes[p], p, s'.reqs) && !s.passes[p].pc.Finished?
    ensures PassInv(s')
  {
    OthersKeep(s, s', p);
  }

  lemma SnapshotKeeps(s: State, p: nat)
    requires PassInv(s) && p < |s.passes| && s.passes[p].pc.Snapshotting?
    ensures PassOk(Snapshot(s, p).passes[p], p, s.reqs)
  {
    assert PassOk(s.passes[p], p, s.reqs);
  }

  lemma PassKeeps(s: State, p: nat)
    requires PassInv(s) && PassNext(s, p).Some?
    ensures PassInv(PassNext(s, p).value)
  {
    match s.passes[p].pc
    case Snapshotting => SnapshotKeeps(s, p); QuietPassKeeps(s, Snapshot(s, p), p);
    case Checking(i) => CheckKeeps(s, p, i); QuietPassKeeps(s, Check(s, p, i), p);
    case Issuing(i) => IssueKeeps(s, p, i); QuietPassKeeps(s, Issue(s, p, i), p);
    case Awaiting(i, id) => ResumeKeeps(s, p, i, id); QuietPassKeeps(s, Resume(s, p, i, s.reqs[id].pc.result.Some?), p);
    case Rechecking(i) => RecheckKeeps(s, p, i); QuietPassKeeps(s, Recheck(s, p, i), p);
    case Notifying => NotifyKeeps(s, p);
    case Finished(_) =>
  }

  lemma StepKeeps(env: Env, s: State, step: Step)
    requires PassInv(s) && Next(env, s, step).Some?
    ensures PassInv(Next(env, s, step).value)
  {
    var s' := Next(env, s, step).value;
    match step
    case ReaderTurn(_) => ReaderKeeps(s, s');
    case DialTurn(a) => DialKeeps(s, a);
    case RequestTurn(id, a) => RequestEffect(s, id, a); RequestKeeps(s, s', id);
    case PassTurn(p) => PassKeeps(s, p);
    case CloseTurn(_) => CloseKeeps(s, s');
    case Consume =>
    case Call(_, _) => AppendKeeps(s, s');
  }

  // ---- a pass's requests are exactly the ones it lists ----

  predicate OwnerListed(reqs: seq<Request>, passes: seq<Pass>, id: nat)
    requires id < |reqs|
  {
    reqs[id].owner.PassOf? ==> reqs[id].owner.pass < |passes| && id in passes[reqs[id].owner.pass].ids
  }

  predicate OwnerInv(s: State) {
    forall id :: 0 <= id < |s.reqs| ==> OwnerListed(s.reqs, s.passes, id)
  }

  predicate ListsGrow(s: State, s': State) {
    && |s.reqs| <= |s'.reqs| && |s.passes| <= |s'.passes|
    && (forall id :: 0 <= id < |s.reqs| ==> s'.reqs[id].owner == s.reqs[id].owner)
    && (forall p :: 0 <= p < |s.passes| ==> s.passes[p].ids <= s'.passes[p].ids)
  }

  lemma GrowthKeepsOwners(s: State, s': State)
    requires OwnerInv(s) && ListsGrow(s, s')
    requires forall id :: |s.reqs| <= id < |s'.reqs| ==> OwnerListed(s'.reqs, s'.passes, id)
    ensures OwnerInv(s')
  {
    forall id | 0 <= id < |s.reqs| ensures OwnerListed(s'.reqs, s'.passes, id) {
      assert OwnerListed(s.reqs, s.passes, id);
    }
  }

  lemma PassLists(s: State, p: nat)
    requires PassNext(s, p).Some?
    ensures var s' := PassNext(s, p).value;
      || (s'.reqs == s.reqs && s'.passes[p].ids == s.passes[p].ids)
      || (|s'.reqs| == |s.reqs| + 1 && s'.passes[p].ids == s.passes[p].ids + [|s.reqs|])
  {}

  lemma PassKeepsOwners(s: State, p: nat)
    requires OwnerInv(s) && PassNext(s, p).Some?
    ensures OwnerInv(PassNext(s, p).value)
  {
    var s' := PassNext(s, p).value;
    PassLists(s, p);
    if s'.reqs != s.reqs {
      assert forall id :: 0 <= id < |s.reqs| ==> s'.reqs[id] == s'.reqs[..|s.reqs|][id];
      assert s'.passes[p].ids[|s.passes[p].ids|] == |s.reqs|;
    }
    GrowthKeepsOwners(s, s');
  }

  lemma DialLists(s: State, a: DialAct)
    requires DialNext(s, a).Some?
    ensures s.passes <= DialNext(s, a).value.passes
  {
    if a.DoInstall? {
      assert s.passes <= InstallStep(s, s.run.u.key, s.run.u.t).passes;
    } else {
      DialKeepsPasses(s, a);
    }
  }

  lemma StepKeepsOwners(env: Env, s: State, step: Step)
    requires OwnerInv(s) && Next(env, s, step).Some?
    ensures OwnerInv(Next(env, s, step).value)
  {
    var s' := Next(env, s, step).value;
    match step
    case ReaderTurn(_) => GrowthKeepsOwners(s, s');
    case DialTurn(a) => DialLists(s, a); GrowthKeepsOwners(s, s');
    case RequestTurn(_, _) => GrowthKeepsOwners(s, s');
    case PassTurn(p) => PassKeepsOwners(s, p);
    case CloseTurn(_) => GrowthKeepsOwners(s, s');
    case Consume => GrowthKeepsOwners(s, s');
    case Call(_, _) => GrowthKeepsOwners(s, s');
  }
}
