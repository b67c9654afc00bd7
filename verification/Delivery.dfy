/** The consumer gets the events of the frames read, in order, and the drop counter counts the rest. */
module Delivery {
  import opened Prelude
  import opened Text
  import opened Crypto
  import opened Pipeline
  import opened Core
  import opened Machine
  import opened Replay

  /** The socket the reader is working on. */
  function At(run: RunPc): Option<nat> {
    if !run.Reader? then None else
      match run.r
      case Reading(t) => Some(t)
      case Handling(t, _) => Some(t)
      case Sending(t, _) => Some(t)
      case Counting(t, _, _) => Some(t)
      case Ponging(t) => Some(t)
      case Clearing(t, _, _, _) => Some(t)
      case Storing(t, _, _, _) => Some(t)
      case Delivering(t, _, _) => Some(t)
      case _ => None
  }

  /** Events handed over so far, with the one the reader is sending. */
  function Offered(s: State): seq<Event> {
    s.consumed + s.buffer + (if s.run.Reader? && s.run.r.Sending? then [s.run.r.event] else [])
  }

  /** Drops counted so far, with the one the reader is about to count. */
  function Noted(run: RunPc): seq<Drop> {
    if run.Reader? && run.r.Counting? then [Drop(run.r.tr, run.r.reason)] else []
  }

  predicate StatsShow(stats: Stats, drops: seq<Drop>) {
    && stats.dropped == |drops|
    && (drops == [] ==> stats == Stats(0, [], None))
    && (drops != [] ==> stats.lastTr == drops[|drops| - 1].tr && stats.lastReason == Some(drops[|drops| - 1].reason))
  }

  predicate Located(s: State) {
    && (At(s.run).Some? ==> At(s.run).value == s.core.generation)
    && (forall i :: 0 <= i < |s.hist.log| ==> s.hist.log[i].t <= s.core.generation)
  }

  /** The material held is what the log says, for the socket in use. */
  ghost predicate MaterialShows(env: Env, s: State) {
    forall tr :: Lookup(s.core, tr) == Current(env, s.hist.log, s.core.generation, tr)
  }

  predicate Counted(env: Env, s: State) {
    var drops, noted := Drops(env, s.hist.log), Noted(s.run);
    |noted| <= |drops| && drops[|drops| - |noted|..] == noted && StatsShow(s.core.stats, drops[..|drops| - |noted|])
  }

  predicate Kept(offered: seq<Event>, events: seq<Event>, skipped: bool) {
    Subsequence(offered, events) && (!skipped ==> offered == events)
  }

  predicate Conserved(env: Env, s: State) {
    Kept(Offered(s), Events(env, s.hist.log), s.skipped) && |s.buffer| <= env.capacity && (s.skipped ==> s.done)
  }

  ghost predicate DeliveryInv(env: Env, s: State) {
    Located(s) && MaterialShows(env, s) && Counted(env, s) && Conserved(env, s)
  }

  lemma InitHolds(env: Env, key: Bytes)
    ensures DeliveryInv(env, Init(key))
  {}

  // ---- steps that judge a frame: what they log, offer and note ----

  /** The step has finished judging one frame. */
  predicate Judged(s: State, s': State, e: Entry) {
    && s'.hist.log == s.hist.log + [e] && At(s.run) == Some(e.t) && (At(s'.run) == At(s.run) || At(s'.run).None?)
    && s'.core.generation == s.core.generation
    && s'.consumed == s.consumed && s'.buffer == s.buffer && s'.skipped == s.skipped && s'.done == s.done
    && !s.run.r.Sending? && !s.run.r.Counting?
  }

  predicate Sends(run: RunPc, events: seq<Event>) {
    events == if run.Reader? && run.r.Sending? then [run.r.event] else []
  }

  /** A judged frame is offered or dropped as the log says, and its material kept. */
  ghost predicate JudgedWell(env: Env, s: State, s': State, e: Entry) {
    && Judged(s, s', e)
    && Sends(s'.run, EventsOf(env, s.hist.log, e))
    && (if Noted(s'.run) != [] then Noted(s'.run) == DropsOf(env, s.hist.log, e) && s'.core.stats == s.core.stats
        else CountsNow(s.core.stats, s'.core.stats, DropsOf(env, s.hist.log, e)))
    && (forall tr :: Lookup(s'.core, tr) ==
          if Delivers(env, e, e.t, tr) then Some(env.store(tr, e.key, e.iv).material) else Lookup(s.core, tr))
  }

  /** The counter moves on by the given drops, of which there is at most one. */
  predicate CountsNow(before: Stats, after: Stats, drops: seq<Drop>) {
    if drops == [] then after == before
    else |drops| == 1 && after == Stats(before.dropped + 1, drops[0].tr, Some(drops[0].reason))
  }

  lemma JudgeDataWell(env: Env, s: State, t: nat, frame: Frame.RealtimeFrame, text: Bytes)
    requires Located(s) && MaterialShows(env, s) && s.run == Reader(Handling(t, Data(frame, text)))
    ensures JudgedWell(env, s, JudgeData(env, s, t, frame, text), DataRead(t, frame, text))
  {
    assert Lookup(s.core, frame.tr) == Current(env, s.hist.log, t, frame.tr);
    assert forall tr :: Lookup(JudgeData(env, s, t, frame, text).core, tr) == Lookup(s.core, tr);
  }

  lemma JudgeGarbageWell(env: Env, s: State, t: nat)
    requires s.run == Reader(Handling(t, Garbage))
    ensures JudgedWell(env, s, JudgeGarbage(s, t), GarbageRead(t))
  {
    assert forall tr :: Lookup(JudgeGarbage(s, t).core, tr) == Lookup(s.core, tr);
  }

  lemma JudgePingWell(env: Env, s: State, t: nat, text: Bytes)
    requires s.run == Reader(Handling(t, Ping(text)))
    ensures JudgedWell(env, s, JudgePing(s, t), PingRead(t))
  {
    assert forall tr :: Lookup(JudgePing(s, t).core, tr) == Lookup(s.core, tr);
  }

  lemma RefusalWell(env: Env, s: State, t: nat, ack: Protocol.AckMessage)
    requires s.run == Reader(Handling(t, Ack(ack))) && env.verdict(Taken(s, ack).1, ack) != None
    ensures JudgedWell(env, s, TakeAck(env, s, t, ack), AckRead(t, Taken(s, ack).1, false, ack.key, ack.iv))
  {
    assert forall tr :: Lookup(TakeAck(env, s, t, ack).core, tr) == Lookup(s.core, tr);
  }

  lemma StoreWell(env: Env, s: State, t: nat, tr: Bytes, w: Option<Waiter>, ack: Protocol.AckMessage)
    requires s.run == Reader(Storing(t, tr, w, ack))
    ensures JudgedWell(env, s, StoreStep(env, s, t, tr, w, ack), AckRead(t, tr, true, ack.key, ack.iv))
  {}

  // ---- a judged frame keeps the invariant ----

  lemma JudgedMaterial(env: Env, s: State, s': State, e: Entry)
    requires Located(s) && MaterialShows(env, s) && JudgedWell(env, s, s', e)
    ensures Located(s') && MaterialShows(env, s')
  {
    Extend(env, s.hist.log, e);
  }

  lemma CountOnePlus(before: Stats, after: Stats, drops: seq<Drop>, added: seq<Drop>)
    requires StatsShow(before, drops) && CountsNow(before, after, added)
    ensures StatsShow(after, drops + added)
  {
    if added == [] {
      assert drops + added == drops;
    }
  }

  lemma JudgedCount(env: Env, s: State, s': State, e: Entry)
    requires Counted(env, s) && JudgedWell(env, s, s', e)
    ensures Counted(env, s')
  {
    Extend(env, s.hist.log, e);
    var drops, added := Drops(env, s.hist.log), DropsOf(env, s.hist.log, e);
    assert drops[..|drops|] == drops;
    if Noted(s'.run) != [] {
      assert (drops + added)[..|drops|] == drops;
    } else {
      CountOnePlus(s.core.stats, s'.core.stats, drops, added);
      assert (drops + added)[..|drops + added|] == drops + added;
    }
  }

  lemma KeptGrows(offered: seq<Event>, events: seq<Event>, added: seq<Event>, skipped: bool)
    requires Kept(offered, events, skipped) && |added| <= 1
    ensures Kept(offered + added, events + added, skipped)
  {
    if added == [] {
      assert offered + added == offered && events + added == events;
    } else {
      SubsequenceBoth(offered, events, added[0]);
      assert added == [added[0]];
    }
  }

  lemma JudgedOffer(s: State, s': State, e: Entry, added: seq<Event>)
    requires Judged(s, s', e) && Sends(s'.run, added)
    ensures Offered(s') == Offered(s) + added
  {
    assert Offered(s) == s.consumed + s.buffer;
  }

  lemma JudgedEvents(env: Env, s: State, s': State, e: Entry)
    requires Conserved(env, s) && JudgedWell(env, s, s', e)
    ensures Conserved(env, s')
  {
    var added := EventsOf(env, s.hist.log, e);
    Extend(env, s.hist.log, e);
    JudgedOffer(s, s', e, added);
    KeptGrows(Offered(s), Events(env, s.hist.log), added, s.skipped);
  }

  lemma JudgedKeeps(env: Env, s: State, s': State, e: Entry)
    requires DeliveryInv(env, s) && JudgedWell(env, s, s', e)
    ensures DeliveryInv(env, s')
  {
    JudgedMaterial(env, s, s', e);
    JudgedCount(env, s, s', e);
    JudgedEvents(env, s, s', e);
  }

  // ---- the rest of the reader ----

  /** Steps that judge, send and count nothing. */
  predicate Untouched(s: State, s': State) {
    && s'.core.material == s.core.material && s'.core.stats == s.core.stats && s'.core.generation == s.core.generation
    && s'.buffer == s.buffer && s'.consumed == s.consumed && s'.skipped == s.skipped && s'.hist.log == s.hist.log
    && (s.done ==> s'.done)
    && Noted(s'.run) == Noted(s.run)
    && Offered(s') == Offered(s)
    && (At(s'.run).Some? ==> At(s'.run) == At(s.run) || At(s'.run) == s.core.transport)
  }

  lemma UntouchedKeeps(env: Env, s: State, s': State)
    requires DeliveryInv(env, s) && Untouched(s, s')
    requires s.core.transport.Some? ==> s.core.transport.value == s.core.generation
    ensures DeliveryInv(env, s')
  {
    UntouchedCounts(env, s, s');
    UntouchedConserves(env, s, s');
    assert forall tr :: Lookup(s'.core, tr) == Lookup(s.core, tr);
  }

  lemma UntouchedCounts(env: Env, s: State, s': State)
    requires Counted(env, s) && Untouched(s, s')
    ensures Counted(env, s')
  {}

  lemma UntouchedConserves(env: Env, s: State, s': State)
    requires Conserved(env, s) && Untouched(s, s')
    ensures Conserved(env, s')
  {}

  lemma SendKeeps(env: Env, s: State, t: nat, event: Event)
    requires DeliveryInv(env, s) && s.run == Reader(Sending(t, event)) && |s.buffer| < env.capacity
    ensures DeliveryInv(env, SendEvent(s, t, event))
  {
    SendOffer(s, t, event);
    assert forall tr :: Lookup(SendEvent(s, t, event).core, tr) == Lookup(s.core, tr);
  }

  lemma SendOffer(s: State, t: nat, event: Event)
    requires s.run == Reader(Sending(t, event))
    ensures Offered(SendEvent(s, t, event)) == Offered(s)
  {}

  lemma SkipOffer(s: State, t: nat, event: Event)
    requires s.run == Reader(Sending(t, event))
    ensures Offered(s) == Offered(SkipEvent(s, t)) + [event]
  {}

  lemma KeptSkips(offered: seq<Event>, event: Event, events: seq<Event>, skipped: bool)
    requires Kept(offered + [event], events, skipped)
    ensures Kept(offered, events, true)
  {
    SubsequenceInit(offered + [event], events);
    assert (offered + [event])[..|offered|] == offered;
  }

  lemma SkipConserves(env: Env, s: State, t: nat, event: Event)
    requires Conserved(env, s) && s.run == Reader(Sending(t, event)) && s.done
    ensures Conserved(env, SkipEvent(s, t))
  {
    SkipOffer(s, t, event);
    KeptSkips(Offered(SkipEvent(s, t)), event, Events(env, s.hist.log), s.skipped);
  }

  lemma SkipKeeps(env: Env, s: State, t: nat, event: Event)
    requires DeliveryInv(env, s) && s.run == Reader(Sending(t, event)) && s.done
    ensures DeliveryInv(env, SkipEvent(s, t))
  {
    SkipConserves(env, s, t, event);
    assert forall tr :: Lookup(SkipEvent(s, t).core, tr) == Lookup(s.core, tr);
  }

  lemma CountCounts(env: Env, s: State, t: nat, tr: Bytes, reason: DropReason)
    requires Counted(env, s) && s.run == Reader(Counting(t, tr, reason))
    ensures Counted(env, CountOne(s, t, tr, reason))
  {
    var s', drops := CountOne(s, t, tr, reason), Drops(env, s.hist.log);
    CountOnePlus(s.core.stats, s'.core.stats, drops[..|drops| - 1], [Drop(tr, reason)]);
    assert drops == drops[..|drops| - 1] + [Drop(tr, reason)];
    assert drops[..|drops|] == drops;
  }

  lemma CountKeeps(env: Env, s: State, t: nat, tr: Bytes, reason: DropReason)
    requires DeliveryInv(env, s) && s.run == Reader(Counting(t, tr, reason))
    ensures DeliveryInv(env, CountOne(s, t, tr, reason))
  {
    var s' := CountOne(s, t, tr, reason);
    CountCounts(env, s, t, tr, reason);
    assert Offered(s') == Offered(s);
    assert forall x :: Lookup(s'.core, x) == Lookup(s.core, x);
  }

  predicate Working(r: ReaderPc) {
    r.Handling? || r.Sending? || r.Counting? || r.Storing?
  }

  lemma ReaderUntouched(env: Env, s: State, a: ReaderAct)
    requires ReaderNext(env, s, a).Some? && !Working(s.run.r)
    ensures Untouched(s, ReaderNext(env, s, a).value)
  {}

  lemma AcceptedUntouched(env: Env, s: State, t: nat, ack: Protocol.AckMessage)
    requires s.run == Reader(Handling(t, Ack(ack))) && env.verdict(Taken(s, ack).1, ack) == None
    ensures Untouched(s, TakeAck(env, s, t, ack))
  {}

  lemma TakeAckKeeps(env: Env, s: State, t: nat, ack: Protocol.AckMessage)
    requires DeliveryInv(env, s) && s.run == Reader(Handling(t, Ack(ack)))
    requires s.core.transport.Some? ==> s.core.transport.value == s.core.generation
    ensures DeliveryInv(env, TakeAck(env, s, t, ack))
  {
    var s' := TakeAck(env, s, t, ack);
    if env.verdict(Taken(s, ack).1, ack) == None {
      AcceptedUntouched(env, s, t, ack);
      UntouchedKeeps(env, s, s');
    } else {
      RefusalWell(env, s, t, ack);
      JudgedKeeps(env, s, s', AckRead(t, Taken(s, ack).1, false, ack.key, ack.iv));
    }
  }

  lemma JudgeKeeps(env: Env, s: State, t: nat, raw: Raw)
    requires DeliveryInv(env, s) && s.run == Reader(Handling(t, raw))
    requires s.core.transport.Some? ==> s.core.transport.value == s.core.generation
    ensures DeliveryInv(env, Judge(env, s, t, raw))
  {
    var s' := Judge(env, s, t, raw);
    match raw
    case Data(frame, text) => JudgeDataWell(env, s, t, frame, text); JudgedKeeps(env, s, s', DataRead(t, frame, text));
    case Garbage => JudgeGarbageWell(env, s, t); JudgedKeeps(env, s, s', GarbageRead(t));
    case Ping(text) => JudgePingWell(env, s, t, text); JudgedKeeps(env, s, s', PingRead(t));
    case Ack(ack) => TakeAckKeeps(env, s, t, ack);
  }

  lemma ReaderKeeps(env: Env, s: State, a: ReaderAct)
    requires DeliveryInv(env, s) && ReaderNext(env, s, a).Some?
    requires s.core.transport.Some? ==> s.core.transport.value == s.core.generation
    ensures DeliveryInv(env, ReaderNext(env, s, a).value)
  {
    match s.run.r
    case Handling(t, raw) => JudgeKeeps(env, s, t, raw);
    case Sending(t, event) => OfferKeeps(env, s, a, t, event);
    case Counting(t, tr, reason) => CountKeeps(env, s, t, tr, reason);
    case Storing(t, tr, w, ack) =>
      StoreWell(env, s, t, tr, w, ack);
      JudgedKeeps(env, s, StoreStep(env, s, t, tr, w, ack), AckRead(t, tr, true, ack.key, ack.iv));
    case _ => RestKeeps(env, s, a);
  }

  lemma OfferKeeps(env: Env, s: State, a: ReaderAct, t: nat, event: Event)
    requires DeliveryInv(env, s) && ReaderNext(env, s, a).Some? && s.run == Reader(Sending(t, event))
    ensures DeliveryInv(env, ReaderNext(env, s, a).value)
  {
    if a.DoSend? {
      SendKeeps(env, s, t, event);
    } else {
      SkipKeeps(env, s, t, event);
    }
  }

  lemma RestKeeps(env: Env, s: State, a: ReaderAct)
    requires DeliveryInv(env, s) && ReaderNext(env, s, a).Some? && !Working(s.run.r)
    requires s.core.transport.Some? ==> s.core.transport.value == s.core.generation
    ensures DeliveryInv(env, ReaderNext(env, s, a).value)
  {
    ReaderUntouched(env, s, a);
    UntouchedKeeps(env, s, ReaderNext(env, s, a).value);
  }

  // ---- the other parties ----

  lemma DialUntouched(s: State, a: DialAct)
    requires DialNext(s, a).Some? && !(a.DoInstall? && !s.core.closed)
    ensures Untouched(s, DialNext(s, a).value)
  {}

  /** A new socket starts without material: nothing carries over from the old one. */
  lemma InstallKeeps(env: Env, s: State, key: Bytes, t: nat)
    requires DeliveryInv(env, s) && s.run == Up(Installing(key, t)) && t < |s.socks| && !s.core.closed
    ensures DeliveryInv(env, InstallStep(s, key, t))
  {
    var s' := InstallStep(s, key, t);
    forall tr ensures Lookup(s'.core, tr) == Current(env, s'.hist.log, s'.core.generation, tr) {
      NothingYet(env, s.hist.log, s.core.generation + 1, tr);
    }
    assert Offered(s') == Offered(s);
  }

  lemma DialKeeps(env: Env, s: State, a: DialAct)
    requires DeliveryInv(env, s) && DialNext(s, a).Some?
    requires s.core.transport.Some? ==> s.core.transport.value == s.core.generation
    ensures DeliveryInv(env, DialNext(s, a).value)
  {
    if a.DoInstall? && !s.core.closed {
      InstallKeeps(env, s, s.run.u.key, s.run.u.t);
    } else {
      DialUntouched(s, a);
      UntouchedKeeps(env, s, DialNext(s, a).value);
    }
  }

  lemma CloseUntouched(s: State, landed: bool)
    requires CloseNext(s, landed).Some?
    ensures s.done ==> CloseNext(s, landed).value.done
  {}

  lemma ConsumeOffer(s: State)
    requires s.buffer != []
    ensures Offered(ConsumeStep(s)) == Offered(s)
  {
    assert s.buffer == [s.buffer[0]] + s.buffer[1..];
    assert s.consumed + s.buffer == ConsumeStep(s).consumed + ConsumeStep(s).buffer;
  }

  lemma ConsumeKeeps(env: Env, s: State)
    requires DeliveryInv(env, s) && s.buffer != []
    ensures DeliveryInv(env, ConsumeStep(s))
  {
    ConsumeOffer(s);
    assert forall tr :: Lookup(ConsumeStep(s).core, tr) == Lookup(s.core, tr);
  }

  lemma StepKeeps(env: Env, s: State, step: Step)
    requires DeliveryInv(env, s) && Next(env, s, step).Some?
    requires s.core.transport.Some? ==> s.core.transport.value == s.core.generation
    ensures DeliveryInv(env, Next(env, s, step).value)
  {
    var s' := Next(env, s, step).value;
    match step
    case ReaderTurn(a) => ReaderKeeps(env, s, a);
    case DialTurn(a) => DialKeeps(env, s, a);
    case RequestTurn(id, a) => UntouchedKeeps(env, s, s');
    case PassTurn(p) => UntouchedKeeps(env, s, s');
    case CloseTurn(landed) => CloseUntouched(s, landed); UntouchedKeeps(env, s, s');
    case Consume => ConsumeKeeps(env, s);
    case Call(_, _) => UntouchedKeeps(env, s, s');
  }
}
