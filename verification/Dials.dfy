/** How `run` comes back: one backoff, one key and one dial at a time, and which key a socket gets. */
module Dials {
  import opened Prelude
  import opened Text
  import opened Protocol
  import opened Core
  import Pipeline
  import opened Machine

  // ---- what the calls say ----

  function Sleeps(obs: seq<Obs>): nat {
    if obs == [] then 0 else Sleeps(obs[..|obs| - 1]) + if obs[|obs| - 1].Slept? then 1 else 0
  }

  /** The key the provider has just returned, if that was the last call. */
  function Fresh(obs: seq<Obs>): Option<Bytes> {
    if obs != [] && obs[|obs| - 1].ApprovalCall? then obs[|obs| - 1].key else None
  }

  /** The key of every successful dial: the one the provider returned immediately before it. */
  function DialKeys(obs: seq<Obs>): seq<Option<Bytes>> {
    if obs == [] then [] else
      var front, last := obs[..|obs| - 1], obs[|obs| - 1];
      DialKeys(front) + if last == DialCall(true) then [Fresh(front)] else []
  }

  /** Sleeps are numbered; a key is asked for only after a sleep, and a dial made only with a fresh key. */
  predicate Placed(before: seq<Obs>, o: Obs) {
    match o
    case Slept(attempt) => attempt == Sleeps(before) + 1
    case ApprovalCall(_) => before == [] || before[|before| - 1].Slept?
    case DialCall(_) => Fresh(before).Some?
    case _ => true
  }

  predicate Paced(obs: seq<Obs>) {
    obs == [] || (Paced(obs[..|obs| - 1]) && Placed(obs[..|obs| - 1], obs[|obs| - 1]))
  }

  lemma {:induction false} PacedAt(obs: seq<Obs>, j: nat)
    requires Paced(obs) && j < |obs|
    ensures Placed(obs[..j], obs[j])
    decreases |obs|
  {
    var front := obs[..|obs| - 1];
    if j < |front| {
      PacedAt(front, j);
      assert front[..j] == obs[..j];
    }
  }

  lemma {:induction false} SleepsGrow(obs: seq<Obs>, i: nat)
    requires i <= |obs|
    ensures Sleeps(obs[..i]) <= Sleeps(obs)
    decreases |obs|
  {
    if i < |obs| {
      SleepsGrow(obs[..|obs| - 1], i);
      assert obs[..|obs| - 1][..i] == obs[..i];
    } else {
      assert obs[..i] == obs;
    }
  }

  lemma Append(obs: seq<Obs>, o: Obs)
    ensures Paced(obs + [o]) <==> Paced(obs) && Placed(obs, o)
    ensures Sleeps(obs + [o]) == Sleeps(obs) + if o.Slept? then 1 else 0
    ensures DialKeys(obs + [o]) == DialKeys(obs) + if o == DialCall(true) then [Fresh(obs)] else []
    ensures Fresh(obs + [o]) == if o.ApprovalCall? then o.key else None
  {
    assert (obs + [o])[..|obs|] == obs;
  }

  // ---- the invariant ----

  /** The socket has been lost and the sleep for it has not been made. */
  predicate Owed(run: RunPc) {
    (run.Down? && (run.d.Marking? || run.d.Reissuing? || run.d.Rekeying?)) || run == Up(Sleeping)
  }

  predicate JustSlept(obs: seq<Obs>) {
    obs != [] && obs[|obs| - 1].Slept?
  }

  predicate Progress(run: RunPc, obs: seq<Obs>) {
    && (run == Up(Waking) || run == Up(Approving) ==> JustSlept(obs))
    && (run.Up? && run.u.Dialing? ==> Fresh(obs) == Some(run.u.key))
    && (run.Up? && run.u.Installing? ==> run.u.t < |DialKeys(obs)| && DialKeys(obs)[run.u.t] == Some(run.u.key))
  }

  predicate KeysOf(socks: seq<Socket>, keys: seq<Option<Bytes>>) {
    |socks| == |keys| && forall t :: 0 <= t < |socks| ==> socks[t].installed.Some? ==> socks[t].installed == keys[t]
  }

  predicate DialInv(s: State) {
    && Paced(s.hist.obs)
    && s.attempt == Sleeps(s.hist.obs) + (if Owed(s.run) then 1 else 0)
    && Progress(s.run, s.hist.obs)
    && KeysOf(s.socks, DialKeys(s.hist.obs))
  }

  lemma InitHolds(key: Bytes)
    ensures DialInv(Init(key))
  {
    var first := [ApprovalCall(Some(key))];
    assert [] + first == first && first + [DialCall(true)] == Init(key).hist.obs;
    Append([], ApprovalCall(Some(key)));
    Append(first, DialCall(true));
    assert DialKeys([]) + [] == DialKeys([]);
  }

  // ---- steps ----

  predicate SameKeys(a: seq<Socket>, b: seq<Socket>) {
    |a| == |b| && forall t :: 0 <= t < |a| ==> b[t].installed == a[t].installed
  }

  /** An observation that is no part of coming back. */
  predicate Aside(o: Obs) {
    !o.Slept? && !o.ApprovalCall? && !o.DialCall?
  }

  predicate AtMostAside(added: seq<Obs>) {
    added == [] || (|added| == 1 && Aside(added[0]))
  }

  lemma AsideChangesNothing(obs: seq<Obs>, added: seq<Obs>)
    requires Paced(obs) && AtMostAside(added)
    ensures Paced(obs + added) && Sleeps(obs + added) == Sleeps(obs) && DialKeys(obs + added) == DialKeys(obs)
  {
    if added == [] {
      assert obs + added == obs;
    } else {
      assert added == [added[0]];
      Append(obs, added[0]);
      assert DialKeys(obs) + [] == DialKeys(obs);
    }
  }

  predicate Behind(run: RunPc) {
    !run.Up? || run == Up(Sleeping)
  }

  /** A turn outside the way back up keeps the invariant if the attempt counter follows what is owed. */
  lemma AsideKeeps(s: State, s': State, added: seq<Obs>)
    requires DialInv(s) && AtMostAside(added) && s'.hist.obs == s.hist.obs + added && SameKeys(s.socks, s'.socks)
    requires s'.attempt - (if Owed(s'.run) then 1 else 0) == s.attempt - (if Owed(s.run) then 1 else 0)
    requires Behind(s'.run)
    ensures DialInv(s')
  {
    AsideChangesNothing(s.hist.obs, added);
  }

  /** A turn of another party. */
  lemma OthersKeep(s: State, s': State)
    requires DialInv(s) && s'.hist.obs == s.hist.obs && SameKeys(s.socks, s'.socks)
    requires s'.run == s.run && s'.attempt == s.attempt
    ensures DialInv(s')
  {}

  lemma ReaderAdds(env: Env, s: State, a: ReaderAct) returns (added: seq<Obs>)
    requires ReaderNext(env, s, a).Some?
    ensures AtMostAside(added) && ReaderNext(env, s, a).value.hist.obs == s.hist.obs + added
  {
    assert s.hist.obs + [] == s.hist.obs;
    if s.run.r.Handling? {
      added := JudgeAdds(env, s, s.run.r.t, s.run.r.raw);
    } else {
      added := if a.DoReadMessage? || a.DoReadError? then [ReadCall]
               else if a.DoForgetRejection? then [AckAccepted] else [];
    }
  }

  lemma JudgeAdds(env: Env, s: State, t: nat, raw: Pipeline.Raw) returns (added: seq<Obs>)
    ensures AtMostAside(added) && Judge(env, s, t, raw).hist.obs == s.hist.obs + added
  {
    var v := if raw.Ack? then env.verdict(Taken(s, raw.ack).1, raw.ack) else None;
    added := if v == Some(SessionOccupied) then [AckOccupied]
             else if v.Some? && v.value.ApprovalRejected? then [AckRejected] else [];
    assert s.hist.obs + [] == s.hist.obs;
  }

  lemma ReaderKeeps(env: Env, s: State, a: ReaderAct)
    requires DialInv(s) && ReaderNext(env, s, a).Some?
    ensures DialInv(ReaderNext(env, s, a).value)
  {
    var added := ReaderAdds(env, s, a);
    AsideKeeps(s, ReaderNext(env, s, a).value, added);
  }

  lemma SleepKeeps(s: State, fired: bool)
    requires DialInv(s) && s.run == Up(Sleeping)
    ensures DialInv(EndSleep(s, fired))
  {
    Append(s.hist.obs, Slept(s.attempt));
    assert DialKeys(s.hist.obs) + [] == DialKeys(s.hist.obs);
  }

  lemma ApproveKeeps(s: State, key: Option<Bytes>)
    requires DialInv(s) && s.run == Up(Approving)
    ensures DialInv(ApproveStep(s, key))
  {
    Append(s.hist.obs, ApprovalCall(key));
    assert DialKeys(s.hist.obs) + [] == DialKeys(s.hist.obs);
  }

  lemma DialOkKeeps(s: State, key: Bytes)
    requires DialInv(s) && s.run == Up(Dialing(key))
    ensures DialInv(DialOk(s, key))
  {
    Append(s.hist.obs, DialCall(true));
  }

  lemma DialErrorKeeps(s: State, key: Bytes)
    requires DialInv(s) && s.run == Up(Dialing(key))
    ensures DialInv(DialError(s))
  {
    Append(s.hist.obs, DialCall(false));
    assert DialKeys(s.hist.obs) + [] == DialKeys(s.hist.obs);
  }

  lemma InstallKeeps(s: State, key: Bytes, t: nat)
    requires DialInv(s) && s.run == Up(Installing(key, t)) && t < |s.socks|
    ensures DialInv(InstallStep(s, key, t))
  {}

  lemma WakeKeeps(s: State)
    requires DialInv(s) && s.run == Up(Waking)
    ensures DialInv(WakeCheck(s))
  {}

  /** What the turns on the way down, the closing ones and the discarding of a socket do. */
  lemma DownEffect(s: State, a: DialAct) returns (added: seq<Obs>)
    requires DialNext(s, a).Some? && (!s.run.Up? || s.run.u.Discarding?)
    ensures
      var s' := DialNext(s, a).value;
      && AtMostAside(added) && s'.hist.obs == s.hist.obs + added && SameKeys(s.socks, s'.socks)
      && s'.attempt - (if Owed(s'.run) then 1 else 0) == s.attempt - (if Owed(s.run) then 1 else 0)
      && Behind(s'.run)
  {
    if s.run.Down? {
      added := LosingEffect(s, a);
    } else {
      added := LastEffect(s, a);
    }
  }

  lemma LosingEffect(s: State, a: DialAct) returns (added: seq<Obs>)
    requires DialNext(s, a).Some? && s.run.Down?
    ensures
      var s' := DialNext(s, a).value;
      && AtMostAside(added) && s'.hist.obs == s.hist.obs + added && SameKeys(s.socks, s'.socks)
      && s'.attempt - (if Owed(s'.run) then 1 else 0) == s.attempt - (if Owed(s.run) then 1 else 0)
      && Behind(s'.run)
  {
    added := if a.DoReissue? then [ReissueCall(a.key)] else [];
    assert s.hist.obs + [] == s.hist.obs;
  }

  lemma LastEffect(s: State, a: DialAct) returns (added: seq<Obs>)
    requires DialNext(s, a).Some? && (s.run.End? || (s.run.Up? && s.run.u.Discarding?))
    ensures
      var s' := DialNext(s, a).value;
      && AtMostAside(added) && s'.hist.obs == s.hist.obs + added && SameKeys(s.socks, s'.socks)
      && s'.attempt - (if Owed(s'.run) then 1 else 0) == s.attempt - (if Owed(s.run) then 1 else 0)
      && Behind(s'.run)
  {
    added := if a.DoAnnounce? then [StoppedNotice] else if a.DoCloseEvents? then [EventsClosed]
             else if a.DoCloseStopped? then [StoppedClosed] else [];
    assert s.hist.obs + [] == s.hist.obs;
  }

  lemma DialKeeps(s: State, a: DialAct)
    requires DialInv(s) && DialNext(s, a).Some?
    ensures DialInv(DialNext(s, a).value)
  {
    if s.run.Up? && !s.run.u.Discarding? {
      match s.run.u
      case Sleeping => SleepKeeps(s, a.fired);
      case Waking => WakeKeeps(s);
      case Approving => ApproveKeeps(s, a.key);
      case Dialing(key) => DialOkKeeps(s, key); DialErrorKeeps(s, key);
      case Installing(key, t) => InstallKeeps(s, key, t);
    } else {
      var added := DownEffect(s, a);
      AsideKeeps(s, DialNext(s, a).value, added);
    }
  }

  lemma StepKeeps(env: Env, s: State, step: Step)
    requires DialInv(s) && Next(env, s, step).Some?
    ensures DialInv(Next(env, s, step).value)
  {
    var s' := Next(env, s, step).value;
    match step
    case ReaderTurn(a) => ReaderKeeps(env, s, a);
    case DialTurn(a) => DialKeeps(s, a);
    case RequestTurn(_, _) => OthersKeep(s, s');
    case PassTurn(_) => OthersKeep(s, s');
    case CloseTurn(_) => OthersKeep(s, s');
    case Consume => OthersKeep(s, s');
    case Call(_, _) => OthersKeep(s, s');
  }
}
