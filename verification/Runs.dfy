/** Properties of whole runs of the `run` goroutine: when it reissues, and how it stops. */
module Runs {
  import opened Prelude
  import opened Text
  import opened Protocol
  import opened Approval
  import opened Core
  import opened Machine

  // ---- key churn ----

  /** A reissue with no accepted ACK since. */
  predicate Armed(obs: seq<Obs>) {
    obs != [] &&
      var last := obs[|obs| - 1];
      !last.AckAccepted? && (last.ReissueCall? || Armed(obs[..|obs| - 1]))
  }

  /** No reissue comes while an earlier one is still unanswered by an accepted ACK. */
  predicate Spaced(obs: seq<Obs>) {
    obs == [] ||
      (Spaced(obs[..|obs| - 1]) && (obs[|obs| - 1].ReissueCall? ==> !Armed(obs[..|obs| - 1])))
  }

  function Reissues(obs: seq<Obs>): nat {
    if obs == [] then 0 else Reissues(obs[..|obs| - 1]) + if obs[|obs| - 1].ReissueCall? then 1 else 0
  }

  function Accepts(obs: seq<Obs>): nat {
    if obs == [] then 0 else Accepts(obs[..|obs| - 1]) + if obs[|obs| - 1].AckAccepted? then 1 else 0
  }

  lemma {:induction false} ArmedMeans(obs: seq<Obs>, i: nat)
    requires i < |obs| && obs[i].ReissueCall? && !Armed(obs)
    ensures exists k :: i < k < |obs| && obs[k].AckAccepted?
    decreases |obs|
  {
    var n := |obs| - 1;
    if !obs[n].AckAccepted? {
      var front := obs[..n];
      assert front[i] == obs[i];
      ArmedMeans(front, i);
      var k :| i < k < |front| && front[k].AckAccepted?;
      assert obs[k].AckAccepted?;
    }
  }

  /** Between any two reissues there is an accepted ACK. */
  lemma {:induction false} SpacedMeans(obs: seq<Obs>, i: nat, j: nat)
    requires Spaced(obs) && i < j < |obs| && obs[i].ReissueCall? && obs[j].ReissueCall?
    ensures exists k :: i < k < j && obs[k].AckAccepted?
    decreases |obs|
  {
    var front := obs[..|obs| - 1];
    if j == |obs| - 1 {
      assert front[i] == obs[i];
      ArmedMeans(front, i);
      var k :| i < k < |front| && front[k].AckAccepted?;
      assert obs[k].AckAccepted?;
    } else {
      assert front[i] == obs[i] && front[j] == obs[j];
      SpacedMeans(front, i, j);
      var k :| i < k < j && front[k].AckAccepted?;
      assert obs[k].AckAccepted?;
    }
  }

  lemma {:induction false} ReissuesBounded(obs: seq<Obs>)
    requires Spaced(obs)
    ensures Reissues(obs) <= Accepts(obs) + if Armed(obs) then 1 else 0
    decreases |obs|
  {
    if obs != [] {
      ReissuesBounded(obs[..|obs| - 1]);
    }
  }

  // ---- reissues and rejections ----

  /** The key has been refused, and neither then nor since has it been reissued for that. */
  predicate Due(obs: seq<Obs>) {
    obs != [] &&
      var front, last := obs[..|obs| - 1], obs[|obs| - 1];
      !last.ReissueCall? && (Due(front) || (last.AckRejected? && !Armed(front)))
  }

  predicate Goes(o: Obs) {
    o.ApprovalCall? || o.DialCall? || o.ReadCall? || o.Slept?
  }

  /** A reissue only when one is due, and nothing else while one is due. */
  predicate Reasoned(obs: seq<Obs>) {
    obs == [] ||
      var front, last := obs[..|obs| - 1], obs[|obs| - 1];
      Reasoned(front) && (last.ReissueCall? ==> Due(front)) && (Goes(last) ==> !Due(front))
  }

  predicate NoReissue(obs: seq<Obs>, i: nat, j: nat) {
    forall k :: i < k < j && k < |obs| ==> !obs[k].ReissueCall?
  }

  lemma {:induction false} DueMeans(obs: seq<Obs>)
    requires Due(obs)
    ensures exists i: nat :: i < |obs| && obs[i].AckRejected? && NoReissue(obs, i, |obs|)
  {
    var n := |obs| - 1;
    var front := obs[..n];
    if Due(front) {
      DueMeans(front);
      var i: nat :| i < |front| && front[i].AckRejected? && NoReissue(front, i, |front|);
      assert obs[i].AckRejected? && NoReissue(obs, i, |obs|);
    } else {
      assert obs[n].AckRejected? && NoReissue(obs, n, |obs|);
    }
  }

  /** A reissue no acceptance has followed. */
  predicate Unanswered(obs: seq<Obs>, r: nat, i: nat) {
    r < i <= |obs| && obs[r].ReissueCall? && forall k :: r < k < i ==> !obs[k].AckAccepted?
  }

  lemma {:induction false} ArmedBy(obs: seq<Obs>)
    requires Armed(obs)
    ensures exists r: nat :: Unanswered(obs, r, |obs|)
  {
    var n := |obs| - 1;
    if obs[n].ReissueCall? {
      assert Unanswered(obs, n, |obs|);
    } else {
      ArmedBy(obs[..n]);
      var r: nat :| Unanswered(obs[..n], r, n);
      assert Unanswered(obs, r, |obs|);
    }
  }

  /** A rejection is no longer due: it was reissued for since, or a reissue was unanswered when it came. */
  lemma {:induction false} SettledMeans(obs: seq<Obs>, i: nat)
    requires i < |obs| && obs[i].AckRejected? && !Due(obs)
    ensures exists r: nat :: r < |obs| && obs[r].ReissueCall? && (r > i || Unanswered(obs, r, i))
    decreases |obs|
  {
    var n := |obs| - 1;
    var front := obs[..n];
    if obs[n].ReissueCall? {
      assert n > i;
    } else if i == n {
      ArmedBy(front);
      var r: nat :| Unanswered(front, r, n);
      assert Unanswered(obs, r, i);
    } else {
      assert front[i] == obs[i];
      SettledMeans(front, i);
      var r: nat :| r < n && front[r].ReissueCall? && (r > i || Unanswered(front, r, i));
      assert obs[r].ReissueCall? && (r > i || Unanswered(obs, r, i));
    }
  }

  lemma {:induction false} ReasonedAt(obs: seq<Obs>, j: nat)
    requires Reasoned(obs) && j < |obs|
    ensures (obs[j].ReissueCall? ==> Due(obs[..j])) && (Goes(obs[j]) ==> !Due(obs[..j]))
    decreases |obs|
  {
    var front := obs[..|obs| - 1];
    if j < |front| {
      ReasonedAt(front, j);
      assert front[..j] == obs[..j];
    }
  }

  lemma ActedOn(obs: seq<Obs>, i: nat, j: nat)
    requires Reasoned(obs) && i < j < |obs| && obs[i].AckRejected? && Goes(obs[j])
    ensures exists r: nat :: r < j && obs[r].ReissueCall? && (r > i || Unanswered(obs, r, i))
  {
    ReasonedAt(obs, j);
    var before := obs[..j];
    assert before[i] == obs[i];
    SettledMeans(before, i);
    var r: nat :| r < |before| && before[r].ReissueCall? && (r > i || Unanswered(before, r, i));
    assert obs[r].ReissueCall? && (r > i || Unanswered(obs, r, i));
  }

  lemma HasReason(obs: seq<Obs>, j: nat)
    requires Reasoned(obs) && j < |obs| && obs[j].ReissueCall?
    ensures exists i: nat :: i < j && obs[i].AckRejected? && NoReissue(obs, i, j)
  {
    ReasonedAt(obs, j);
    var before := obs[..j];
    DueMeans(before);
    var i: nat :| i < |before| && before[i].AckRejected? && NoReissue(before, i, |before|);
    assert obs[i].AckRejected? && NoReissue(obs, i, j);
  }

  /** The calls, read as calls on one caching provider. */
  datatype ProviderRun = ProviderRun(possible: bool, cached: Bytes, issued: nat)

  /** What the provider would have been asked to return for the call to come out like this. */
  function Replayed(obs: seq<Obs>): ProviderRun {
    if obs == [] then ProviderRun(true, [], 0) else
      var before := Replayed(obs[..|obs| - 1]);
      match obs[|obs| - 1]
      case ApprovalCall(key) => Answered(before, AnswerApproval(true, before.cached, key), key)
      case ReissueCall(key) => Answered(before, AnswerReissue(true, key), key)
      case _ => before
  }

  function Answered(before: ProviderRun, a: Answer, key: Option<Bytes>): ProviderRun {
    ProviderRun(before.possible && a.key == key, a.cached, before.issued + if a.issued then 1 else 0)
  }

  lemma {:induction false} IssuesBounded(obs: seq<Obs>)
    ensures Replayed(obs).issued + (if Replayed(obs).cached == [] then 1 else 0) <= Reissues(obs) + 1
    decreases |obs|
  {
    if obs != [] {
      IssuesBounded(obs[..|obs| - 1]);
    }
  }

  // ---- how the run ends ----

  /** What may still happen after the calls so far. */
  predicate Allowed(before: seq<Obs>, o: Obs) {
    && (AckOccupied in before ==> o.StoppedNotice? || o.EventsClosed? || o.StoppedClosed?)
    && (EventsClosed in before ==> o.StoppedClosed?)
    && StoppedClosed !in before
    && (o.StoppedNotice? ==> AckOccupied in before && StoppedNotice !in before)
    && (o.StoppedClosed? ==> EventsClosed in before)
  }

  predicate Orderly(obs: seq<Obs>) {
    obs == [] || (Orderly(obs[..|obs| - 1]) && Allowed(obs[..|obs| - 1], obs[|obs| - 1]))
  }

  lemma {:induction false} OrderlyMeans(obs: seq<Obs>, j: nat)
    requires Orderly(obs) && j < |obs|
    ensures Allowed(obs[..j], obs[j])
    decreases |obs|
  {
    var front := obs[..|obs| - 1];
    if j < |front| {
      OrderlyMeans(front, j);
      assert front[..j] == obs[..j];
    }
  }

  // ---- the invariant ----

  /** The reason `run` is on its way down, if any. */
  function Flight(run: RunPc): Verdict {
    match run
    case Reader(Delivering(_, _, v)) => v
    case Reader(Failing(err)) => Some(err)
    case Reader(Releasing(_, err)) => Some(err)
    case Down(Deciding(err)) => Some(err)
    case Down(Detaching(err)) => Some(err)
    case Down(HangingUp(_, err)) => Some(err)
    case Down(Marking(code)) => Some(ApprovalRejected(code))
    case End(Announcing) => Some(SessionOccupied)
    case _ => None
  }

  /** Every approval rejection names the one reissuable code. */
  ghost predicate Sound(env: Env) {
    forall tr, ack :: var v := env.verdict(tr, ack);
      v.Some? && v.value.ApprovalRejected? ==> v.value.code == MSG_APPROVAL_REJECTED
  }

  predicate EndsMatch(run: RunPc, obs: seq<Obs>, closed: bool) {
    && (EventsClosed in obs <==> run == End(ClosingStopped) || run == End(Ended))
    && (StoppedClosed in obs <==> run == End(Ended))
    && (StoppedNotice in obs ==> AckOccupied in obs && run.End? && !run.e.Announcing?)
    && (Flight(run) == Some(SessionOccupied) ==> AckOccupied in obs)
    && (AckOccupied in obs ==> Flight(run) == Some(SessionOccupied) || run.End?)
    && (run.End? ==> closed || AckOccupied in obs)
  }

  /** `run` is on its way down because the key was refused. */
  predicate Rejecting(run: RunPc) {
    Flight(run).Some? && Flight(run).value.ApprovalRejected?
  }

  predicate KeyMatches(run: RunPc, obs: seq<Obs>, reissuedFor: Bytes) {
    && reissuedFor == (if Armed(obs) || run == Down(Reissuing) then MSG_APPROVAL_REJECTED else [])
    && (run == Down(Reissuing) ==> !Armed(obs) && Due(obs))
    && (Rejecting(run) ==> Flight(run).value.code == MSG_APPROVAL_REJECTED && (Due(obs) <==> !Armed(obs)))
    && (Due(obs) ==> run == Down(Reissuing) || Rejecting(run) || run.End?)
  }

  predicate RunInv(s: State) {
    && Orderly(s.hist.obs) && Spaced(s.hist.obs) && Reasoned(s.hist.obs)
    && EndsMatch(s.run, s.hist.obs, s.core.closed)
    && KeyMatches(s.run, s.hist.obs, s.core.reissuedFor)
  }

  lemma InitHolds(key: Bytes)
    ensures RunInv(Init(key))
  {
    Append([], ApprovalCall(Some(key)));
    Append([ApprovalCall(Some(key))], DialCall(true));
    assert [] + [ApprovalCall(Some(key))] == [ApprovalCall(Some(key))];
    assert [ApprovalCall(Some(key))] + [DialCall(true)] == [ApprovalCall(Some(key)), DialCall(true)];
  }

  // ---- steps ----

  lemma Append(obs: seq<Obs>, o: Obs)
    ensures Orderly(obs + [o]) <==> Orderly(obs) && Allowed(obs, o)
    ensures Spaced(obs + [o]) <==> Spaced(obs) && (o.ReissueCall? ==> !Armed(obs))
    ensures Armed(obs + [o]) <==> !o.AckAccepted? && (o.ReissueCall? || Armed(obs))
    ensures Due(obs + [o]) <==> !o.ReissueCall? && (Due(obs) || (o.AckRejected? && !Armed(obs)))
    ensures Reasoned(obs + [o]) <==> Reasoned(obs) && (o.ReissueCall? ==> Due(obs)) && (Goes(o) ==> !Due(obs))
  {
    assert (obs + [o])[..|obs|] == obs;
  }

  /** A turn that observes nothing new. */
  predicate Silent(s: State, s': State) {
    && s'.hist.obs == s.hist.obs
    && s'.core.reissuedFor == s.core.reissuedFor && (s.core.closed ==> s'.core.closed)
    && (s'.run == s.run || (!s.run.End? && s.run != Down(Reissuing) &&
          ((Flight(s'.run) == Flight(s.run) && !s'.run.End? && s'.run != Down(Reissuing))
           || (Flight(s.run) != Some(SessionOccupied) && Calm(s, s') && (Rejecting(s.run) ==> s'.run.End?)))))
  }

  /** Nothing terminal is in flight before or after, unless `run` leaves because of a close. */
  predicate Calm(s: State, s': State) {
    var f := Flight(s'.run);
    && (f.None? || (f.value != SessionOccupied && !f.value.ApprovalRejected?))
    && (s'.run.End? ==> s'.run == End(ClosingEvents) && s'.core.closed)
    && s'.run != Down(Reissuing)
  }

  lemma SilentKeeps(s: State, s': State)
    requires RunInv(s) && Silent(s, s')
    ensures RunInv(s')
  {}

  /** A turn that observes something harmless while nothing terminal is in flight. */
  lemma ObservedKeeps(s: State, s': State, o: Obs)
    requires RunInv(s) && s'.hist.obs == s.hist.obs + [o] && s'.core.closed == s.core.closed
    requires o.ApprovalCall? || o.DialCall? || o.ReadCall?
    requires s'.core.reissuedFor == s.core.reissuedFor
    requires Flight(s.run) == None && !s.run.End? && s.run != Down(Reissuing) && Calm(s, s') && !s'.run.End?
    ensures RunInv(s')
  {
    Append(s.hist.obs, o);
  }

  predicate Loud(s: State, a: ReaderAct) {
    a.DoReadMessage? || a.DoReadError? || a.DoForgetRejection?
    || (a.DoJudge? && s.run.Reader? && s.run.r.Handling? && s.run.r.raw.Ack?)
  }

  predicate Descending(s: State, a: ReaderAct) {
    a.DoDeliver? || a.DoFailAll? || a.DoRelease? || a.DoLeave?
  }

  /** On the way out of the read loop the reason stays the same; a refused subscription is none. */
  lemma DescendingSilent(env: Env, s: State, a: ReaderAct)
    requires ReaderNext(env, s, a).Some? && Descending(s, a)
    ensures Silent(s, ReaderNext(env, s, a).value)
  {}

  lemma QuietReads(env: Env, s: State, a: ReaderAct)
    requires ReaderNext(env, s, a).Some? && !Loud(s, a) && !Descending(s, a)
    ensures Silent(s, ReaderNext(env, s, a).value)
  {}

  lemma TakeAckKeeps(env: Env, s: State, t: nat, ack: AckMessage)
    requires RunInv(s) && Sound(env) && s.run == Reader(Handling(t, Pipeline.Ack(ack)))
    ensures RunInv(TakeAck(env, s, t, ack))
  {
    var s', v := TakeAck(env, s, t, ack), env.verdict(Taken(s, ack).1, ack);
    if v == Some(SessionOccupied) {
      VerdictKeeps(s, s', v, AckOccupied);
    } else if v.Some? && v.value.ApprovalRejected? {
      VerdictKeeps(s, s', v, AckRejected);
    } else {
      SilentKeeps(s, s');
    }
  }

  /** A fatal verdict takes flight. */
  lemma VerdictKeeps(s: State, s': State, v: Verdict, o: Obs)
    requires RunInv(s) && s.run.Reader? && Flight(s.run) == None
    requires (v == Some(SessionOccupied) && o == AckOccupied)
          || (v == Some(ApprovalRejected(MSG_APPROVAL_REJECTED)) && o == AckRejected)
    requires s'.run.Reader? && s'.run.r.Delivering? && s'.run.r.verdict == v
    requires s'.hist.obs == s.hist.obs + [o] && s'.core.reissuedFor == s.core.reissuedFor
    requires s'.core.closed == s.core.closed
    ensures RunInv(s')
  {
    Append(s.hist.obs, o);
  }

  lemma ForgetRejectionKeeps(s: State, t: nat, tr: Bytes, w: Option<Waiter>, ack: AckMessage)
    requires RunInv(s) && s.run == Reader(Clearing(t, tr, w, ack))
    ensures RunInv(ForgetRejection(s, t, tr, w, ack))
  {
    Append(s.hist.obs, AckAccepted);
  }

  lemma ReaderKeeps(env: Env, s: State, a: ReaderAct)
    requires RunInv(s) && Sound(env) && ReaderNext(env, s, a).Some?
    ensures RunInv(ReaderNext(env, s, a).value)
  {
    if a.DoReadMessage? || a.DoReadError? {
      ReadKeeps(env, s, a);
    } else if a.DoForgetRejection? {
      ForgetRejectionKeeps(s, s.run.r.t, s.run.r.tr, s.run.r.waiter, s.run.r.ack);
    } else if Loud(s, a) {
      TakeAckKeeps(env, s, s.run.r.t, s.run.r.raw.ack);
    } else {
      SilentReadKeeps(env, s, a);
    }
  }

  lemma ReadKeeps(env: Env, s: State, a: ReaderAct)
    requires RunInv(s) && ReaderNext(env, s, a).Some? && (a.DoReadMessage? || a.DoReadError?)
    ensures RunInv(ReaderNext(env, s, a).value)
  {
    ObservedKeeps(s, ReaderNext(env, s, a).value, ReadCall);
  }

  lemma SilentReadKeeps(env: Env, s: State, a: ReaderAct)
    requires RunInv(s) && ReaderNext(env, s, a).Some? && !Loud(s, a)
    ensures RunInv(ReaderNext(env, s, a).value)
  {
    if Descending(s, a) {
      DescendingSilent(env, s, a);
    } else {
      QuietReads(env, s, a);
    }
    SilentKeeps(s, ReaderNext(env, s, a).value);
  }

  lemma MarkKeeps(s: State, code: Bytes)
    requires RunInv(s) && s.run == Down(Marking(code))
    ensures RunInv(MarkStep(s, code))
  {
    assert MSG_APPROVAL_REJECTED != [];
  }

  lemma ReissueKeeps(s: State, key: Option<Bytes>)
    requires RunInv(s) && s.run == Down(Reissuing)
    ensures RunInv(ReissueStep(s, key))
  {
    Append(s.hist.obs, ReissueCall(key));
  }

  lemma EndSleepKeeps(s: State, fired: bool)
    requires RunInv(s) && s.run == Up(Sleeping) && (fired || s.core.closed)
    ensures RunInv(EndSleep(s, fired))
  {
    Append(s.hist.obs, Slept(s.attempt));
  }

  lemma EndKeeps(s: State, a: DialAct)
    requires RunInv(s) && DialNext(s, a).Some? && s.run.End?
    ensures RunInv(DialNext(s, a).value)
  {
    match s.run.e
    case Announcing => AnnounceKeeps(s);
    case ClosingEvents => CloseEventsKeeps(s);
    case ClosingStopped => CloseStoppedKeeps(s);
    case Ended =>
  }

  lemma AnnounceKeeps(s: State)
    requires RunInv(s) && s.run == End(Announcing)
    ensures RunInv(Announce(s))
  {
    Append(s.hist.obs, StoppedNotice);
  }

  lemma CloseEventsKeeps(s: State)
    requires RunInv(s) && s.run == End(ClosingEvents)
    ensures RunInv(CloseEvents(s))
  {
    Append(s.hist.obs, EventsClosed);
  }

  lemma CloseStoppedKeeps(s: State)
    requires RunInv(s) && s.run == End(ClosingStopped)
    ensures RunInv(CloseStopped(s))
  {
    Append(s.hist.obs, StoppedClosed);
  }

  lemma OtherDialsSilent(s: State, a: DialAct)
    requires DialNext(s, a).Some? && !s.run.End? && !a.DoDecide? && !a.DoHangUp? && !a.DoMark? && !a.DoReissue?
    requires !a.DoEndSleep? && !a.DoApprove? && !a.DoDial?
    ensures Silent(s, DialNext(s, a).value)
  {}

  lemma HangUpKeeps(s: State, socket: Option<nat>, err: Fault)
    requires RunInv(s) && s.run == Down(HangingUp(socket, err))
    ensures RunInv(HangUp(s, socket, err))
  {}

  lemma DecideKeeps(s: State, err: Fault)
    requires RunInv(s) && s.run == Down(Deciding(err))
    ensures RunInv(Decide(s, err))
  {}

  lemma DialKeeps(s: State, a: DialAct)
    requires RunInv(s) && DialNext(s, a).Some?
    requires s.done ==> s.core.closed
    ensures RunInv(DialNext(s, a).value)
  {
    var s' := DialNext(s, a).value;
    if s.run.End? {
      EndKeeps(s, a);
    } else {
      match a
      case DoDecide => DecideKeeps(s, s.run.d.err);
      case DoHangUp => HangUpKeeps(s, s.run.d.socket, s.run.d.err);
      case DoMark => MarkKeeps(s, s.run.d.code);
      case DoReissue(key) => ReissueKeeps(s, key);
      case DoEndSleep(fired) => EndSleepKeeps(s, fired);
      case DoApprove(key) => ObservedKeeps(s, s', ApprovalCall(key));
      case DoDial(ok) => ObservedKeeps(s, s', DialCall(ok));
      case _ => OtherDialsSilent(s, a); SilentKeeps(s, s');
    }
  }

  lemma StepKeeps(env: Env, s: State, step: Step)
    requires RunInv(s) && Sound(env) && Next(env, s, step).Some?
    requires s.done ==> s.core.closed
    ensures RunInv(Next(env, s, step).value)
  {
    var s' := Next(env, s, step).value;
    match step
    case ReaderTurn(a) => ReaderKeeps(env, s, a);
    case DialTurn(a) => DialKeeps(s, a);
    case RequestTurn(_, _) => SilentKeeps(s, s');
    case PassTurn(_) => SilentKeeps(s, s');
    case CloseTurn(_) => SilentKeeps(s, s');
    case Consume => SilentKeeps(s, s');
    case Call(_, _) => SilentKeeps(s, s');
  }

  /** The verdicts of the real protocol are sound. */
  lemma KisSound(capacity: nat, json: Bytes -> Option<AckMessage>, decrypt: Crypto.BlockDecrypt)
    ensures Sound(KisEnv(capacity, json, decrypt))
  {
    forall tr, ack ensures var v := ClassifyAck(tr, ack);
      v.Some? && v.value.ApprovalRejected? ==> v.value.code == MSG_APPROVAL_REJECTED
    {
      VerdictTable(tr, ack);
    }
  }
}
