/**
 * The connection as a concurrent protocol. Four kinds of party (the `run` goroutine, the
 * requests, one resubscribe pass per installed socket, and `Close`) take turns in any order.
 * Every critical section is one step; reads, writes, dials, provider calls, timers and closes
 * are further steps, one for each outcome the environment can choose.
 */
module Machine {
  import opened Prelude
  import opened Text
  import opened Frame
  import opened Protocol
  import opened Crypto
  import opened Pipeline
  import opened Core

  /** What the connection is configured with; the wire pipeline enters as functions. */
  datatype Env = Env(
    capacity: nat,
    classify: Bytes -> Raw,
    interpret: (RealtimeFrame, Bytes, Option<Material>) -> Outcome,
    store: (Bytes, Bytes, Bytes) -> Stored,
    verdict: (Bytes, AckMessage) -> Verdict)

  /** The environment whose pipeline and verdicts are those of modules `Pipeline` and `Protocol`. */
  function KisEnv(capacity: nat, json: Bytes -> Option<AckMessage>, decrypt: BlockDecrypt): Env {
    Env(capacity,
        text => Classify(json, text),
        (frame, text, m) => Interpret(decrypt, frame, text, m),
        (tr, rawKey, rawIv) => StoreOutcome(tr, rawKey, rawIv),
        (tr, ack) => ClassifyAck(tr, ack))
  }

  /** A subscribe or unsubscribe request as it goes over the wire. */
  datatype WireFrame = WireFrame(approval: Bytes, subscribe: bool, tr: Bytes, key: Bytes)

  /** A dialled socket: the key it was installed with, what was written, whether it was closed. */
  datatype Socket = Socket(installed: Option<Bytes>, wire: seq<WireFrame>, closed: bool)

  // ---- the run goroutine ----

  datatype ReaderPc =
    | Top
    | Reading(t: nat)
    | Handling(t: nat, raw: Raw)
    | Sending(t: nat, event: Event)
    | Counting(t: nat, tr: Bytes, reason: DropReason)
    | Ponging(t: nat)
    | Clearing(t: nat, tr: Bytes, waiter: Option<Waiter>, ack: AckMessage)
    | Storing(t: nat, tr: Bytes, waiter: Option<Waiter>, ack: AckMessage)
    | Delivering(t: nat, waiter: Option<Waiter>, verdict: Verdict)
    | Failing(err: Fault)
    | Releasing(waiters: seq<Waiter>, err: Fault)

  datatype DownPc =
    | Deciding(err: Fault)
    | Detaching(err: Fault)
    | HangingUp(socket: Option<nat>, err: Fault)
    | Marking(code: Bytes)
    | Reissuing
    | Rekeying(key: Bytes)

  datatype UpPc =
    | Sleeping
    | Waking
    | Approving
    | Dialing(key: Bytes)
    | Installing(key: Bytes, t: nat)
    | Discarding(t: nat)

  datatype EndPc =
    | Announcing
    | ClosingEvents
    | ClosingStopped
    | Ended

  datatype RunPc = Reader(r: ReaderPc) | Down(d: DownPc) | Up(u: UpPc) | End(e: EndPc)

  // ---- the other parties ----

  datatype Owner = Caller | PassOf(pass: nat)

  datatype RequestPc =
    | Starting
    | Writing(socket: Option<nat>, approval: Bytes)
    | Waiting
    | Forgetting(err: Fault, unsent: bool)
    | Retracting(err: Fault)
    | Returned(result: Verdict)

  /** How far a request's frame has come; `NoSocket` if none was in use when the request registered. */
  datatype Sending = Untried | NoSocket | Unwritten | Sent

  /** `registered` records the generation in which the request entered `pending`; `resolved` counts verdicts. */
  datatype Request = Request(owner: Owner, subscribe: bool, sub: Subscription, pc: RequestPc,
                             slot: Option<Verdict>, registered: Option<nat>, resolved: nat, sending: Sending)

  datatype PassPc =
    | Snapshotting
    | Checking(i: nat)
    | Issuing(i: nat)
    | Awaiting(i: nat, id: nat)
    | Rechecking(i: nat)
    | Notifying
    | Finished(reported: bool)

  /** The resubscribe pass of one generation; `ids` are the requests it has issued. */
  datatype Pass = Pass(generation: nat, attempt: nat, snapshot: seq<Subscription>, ids: seq<nat>, pc: PassPc)

  datatype CloserPc =
    | Idle
    | Unsubscribing(socket: Option<nat>, approval: Bytes, active: seq<Subscription>, i: nat)
    | Signalling(socket: Option<nat>)
    | ClosingSocket(socket: Option<nat>)
    | AwaitingStop(socket: Option<nat>)
    | CloseReturned(socket: Option<nat>)

  // ---- history ----

  /** Calls the run goroutine makes and turns it takes, in order. */
  datatype Obs =
    | ApprovalCall(key: Option<Bytes>)
    | ReissueCall(key: Option<Bytes>)
    | DialCall(ok: bool)
    | ReadCall
    | AckAccepted
    | AckRejected // the approval key was refused
    | AckOccupied
    | Slept(attempt: nat)
    | StoppedNotice
    | EventsClosed
    | StoppedClosed

  /** Frames as the reader has finished judging them; `tr` is the transaction an ACK is attributed to. */
  datatype Entry =
    | DataRead(t: nat, frame: RealtimeFrame, text: Bytes)
    | AckRead(t: nat, tr: Bytes, accepted: bool, key: Bytes, iv: Bytes)
    | PingRead(t: nat)
    | GarbageRead(t: nat)

  /** Changes to the list, each with the request that made it; Close empties the list. */
  datatype SubOp = Add(s: Subscription, author: nat) | Remove(s: Subscription, author: nat) | Reset

  /** What `notify` tells the caller: a reconnect has succeeded, or `run` has stopped for good. */
  datatype Notice = Restored(generation: nat, attempt: nat, restored: nat) | Stopped(attempt: nat)

  /** A frame as it came off socket t. */
  datatype Arrival = Arrival(t: nat, text: Bytes)

  /** Who wrote a frame: a request, or Close for one entry of its snapshot. */
  datatype Writer = Requester(id: nat) | Closing(i: nat)

  /** A frame that reached socket t. */
  datatype Write = Write(t: nat, frame: WireFrame, writer: Writer)

  datatype History = History(obs: seq<Obs>, arrivals: seq<Arrival>, log: seq<Entry>, notices: seq<Notice>,
                             subOps: seq<SubOp>, writes: seq<Write>, farewell: Farewell)

  /** What Close took its snapshot of, and the unsubscribe frames it has tried to write. */
  datatype Farewell = Farewell(socket: Option<nat>, approval: Bytes, active: seq<Subscription>, sent: seq<WireFrame>)

  datatype State = State(
    core: Shared,
    run: RunPc,
    attempt: nat,
    reqs: seq<Request>,
    passes: seq<Pass>,
    closer: CloserPc,
    socks: seq<Socket>,
    buffer: seq<Event>,
    consumed: seq<Event>,
    skipped: bool,      // an event was given up because `done` was closed
    done: bool,
    eventsClosed: bool,
    stopped: bool,
    hist: History)

  function InitShared(key: Bytes): Shared {
    Shared(Some(0), key, 0, [], map[], [], false, Stats(0, [], None), [])
  }

  /** `Dial` has obtained a key, opened a socket and started the run goroutine. */
  function Init(key: Bytes): State {
    State(InitShared(key), Reader(Top), 0, [], [], Idle, [Socket(Some(key), [], false)], [], [],
          false, false, false, false,
          History([ApprovalCall(Some(key)), DialCall(true)], [], [], [], [], [], Farewell(None, [], [], [])))
  }

  // ---- what each party may touch ----

  function NewRequest(owner: Owner, subscribe: bool, sub: Subscription): Request {
    Request(owner, subscribe, sub, Starting, None, None, 0, Untried)
  }

  /** The same requests, up to verdicts delivered on their channels. */
  predicate SameButVerdicts(a: seq<Request>, b: seq<Request>) {
    |a| == |b| && forall i :: 0 <= i < |a| ==> b[i] == a[i].(slot := b[i].slot, resolved := b[i].resolved)
  }

  /** Reading leaves sockets, subscriptions, passes and Close alone, and never goes back to the top. */
  predicate ReaderFrame(s: State, s': State) {
    && s'.core.transport == s.core.transport && s'.core.key == s.core.key
    && s'.core.generation == s.core.generation && s'.core.subs == s.core.subs && s'.core.closed == s.core.closed
    && s'.attempt == s.attempt && s'.passes == s.passes && s'.closer == s.closer && s'.socks == s.socks
    && s'.consumed == s.consumed
    && s'.done == s.done && s'.eventsClosed == s.eventsClosed && s'.stopped == s.stopped
    && s'.hist.notices == s.hist.notices && s'.hist.subOps == s.hist.subOps && s'.hist.farewell == s.hist.farewell
    && s'.hist.writes == s.hist.writes
    && SameButVerdicts(s.reqs, s'.reqs)
    && (s'.run.Reader? ==> !s'.run.r.Top?) && (s'.run.Down? ==> s'.run.d.Deciding?)
    && !s'.run.Up? && !s'.run.End?
  }

  /** The one notice that `run` itself sends. */
  predicate Stops(s: State, s': State) {
    s.run == End(Announcing) && s'.run == End(ClosingEvents) && s'.hist.notices == s.hist.notices + [Stopped(s.attempt)]
  }

  /** Going down and coming up touch neither requests nor anything the reader produces. */
  predicate DialFrame(s: State, s': State) {
    && s'.core.subs == s.core.subs && s'.core.pending == s.core.pending && s'.core.closed == s.core.closed
    && s'.core.stats == s.core.stats
    && s'.reqs == s.reqs && s'.closer == s.closer
    && s'.buffer == s.buffer && s'.consumed == s.consumed && s'.skipped == s.skipped && s'.done == s.done
    && s'.hist.arrivals == s.hist.arrivals && s'.hist.log == s.hist.log
    && (s'.hist.notices == s.hist.notices || Stops(s, s'))
    && s'.hist.subOps == s.hist.subOps && s'.hist.farewell == s.hist.farewell && s'.hist.writes == s.hist.writes
  }

  /** The last steps of `run` only announce and close. */
  predicate EndFrame(s: State, s': State) {
    DialFrame(s, s') && s'.core == s.core && s'.passes == s.passes && s'.socks == s.socks && s'.attempt == s.attempt
  }

  /** The same sockets, up to frames written. */
  predicate SameButWire(a: seq<Socket>, b: seq<Socket>) {
    |a| == |b| && forall t :: 0 <= t < |a| ==> b[t] == a[t].(wire := b[t].wire)
  }

  /** A request touches its own record, subscriptions, `pending` and the wire. */
  predicate RequestFrame(s: State, s': State, id: nat) {
    && s'.core.transport == s.core.transport && s'.core.key == s.core.key
    && s'.core.generation == s.core.generation && s'.core.closed == s.core.closed
    && s'.core.material == s.core.material && s'.core.stats == s.core.stats && s'.core.reissuedFor == s.core.reissuedFor
    && s'.run == s.run && s'.attempt == s.attempt && s'.passes == s.passes && s'.closer == s.closer
    && s'.buffer == s.buffer && s'.consumed == s.consumed && s'.skipped == s.skipped
    && s'.done == s.done && s'.eventsClosed == s.eventsClosed && s'.stopped == s.stopped
    && s'.hist.obs == s.hist.obs && s'.hist.arrivals == s.hist.arrivals && s'.hist.log == s.hist.log
    && s'.hist.notices == s.hist.notices && s'.hist.farewell == s.hist.farewell
    && SameButWire(s.socks, s'.socks)
    && id < |s.reqs| && |s'.reqs| == |s.reqs| && s'.reqs == s.reqs[id := s'.reqs[id]]
    && s'.reqs[id].owner == s.reqs[id].owner && s'.reqs[id].subscribe == s.reqs[id].subscribe
    && s'.reqs[id].sub == s.reqs[id].sub && s'.reqs[id].resolved == s.reqs[id].resolved
  }

  /** A pass touches its own record, may issue a request and may report. */
  predicate PassFrame(s: State, s': State, p: nat) {
    && s' == s.(passes := s'.passes, reqs := s'.reqs, hist := s.hist.(notices := s'.hist.notices))
    && p < |s.passes| && |s'.passes| == |s.passes| && s'.passes == s.passes[p := s'.passes[p]]
    && s'.passes[p].generation == s.passes[p].generation && s'.passes[p].attempt == s.passes[p].attempt
    && (s'.reqs == s.reqs || (|s'.reqs| == |s.reqs| + 1 && s'.reqs[..|s.reqs|] == s.reqs
          && s'.reqs[|s.reqs|] == NewRequest(PassOf(p), true, s'.reqs[|s.reqs|].sub)))
  }

  /** Close touches `closed`, subscriptions, the wire and its own record; it may close a socket. */
  predicate CloseFrame(s: State, s': State) {
    && s'.core == s.core.(closed := s'.core.closed, subs := s'.core.subs) && (s.core.closed ==> s'.core.closed)
    && s'.run == s.run && s'.attempt == s.attempt && s'.reqs == s.reqs && s'.passes == s.passes
    && s'.buffer == s.buffer && s'.consumed == s.consumed && s'.skipped == s.skipped
    && s'.eventsClosed == s.eventsClosed && s'.stopped == s.stopped
    && s'.hist.obs == s.hist.obs && s'.hist.arrivals == s.hist.arrivals && s'.hist.log == s.hist.log
    && s'.hist.notices == s.hist.notices
    && |s'.socks| == |s.socks|
    && forall t :: 0 <= t < |s.socks| ==> s'.socks[t].installed == s.socks[t].installed
  }

  // ---- readLoop, handle, pong, applyAck, publish (kis/ws/reader.go) ----

  function Observed(h: History, o: Obs): History {
    h.(obs := h.obs + [o])
  }

  function Arrived(h: History, a: Arrival): History {
    h.(obs := h.obs + [ReadCall], arrivals := h.arrivals + [a])
  }

  function Logged(h: History, e: Entry): History {
    h.(log := h.log + [e])
  }

  /** A non-blocking send on the waiter's channel. */
  function Resolve(reqs: seq<Request>, id: nat, v: Verdict): (r: seq<Request>)
    ensures SameButVerdicts(reqs, r)
  {
    if id >= |reqs| then reqs
    else reqs[id := reqs[id].(slot := if reqs[id].slot == None then Some(v) else reqs[id].slot,
                              resolved := reqs[id].resolved + 1)]
  }

  /** The transaction an ACK is attributed to. */
  function Attributed(tr: Bytes, w: Option<Waiter>): Bytes {
    if tr == [] && w.Some? then w.value.tr else tr
  }

  function Enter(s: State): (s': State)
    ensures ReaderFrame(s, s')
  {
    s.(run := if s.core.transport.None? then Down(Deciding(ConnClosed)) else Reader(Reading(s.core.transport.value)))
  }

  function ReadMessage(env: Env, s: State, t: nat, text: Bytes): (s': State)
    ensures ReaderFrame(s, s')
  {
    s.(run := Reader(Handling(t, env.classify(text))), hist := Arrived(s.hist, Arrival(t, text)))
  }

  function ReadError(s: State): (s': State)
    ensures ReaderFrame(s, s')
  {
    s.(run := Reader(Failing(Broken)), hist := Observed(s.hist, ReadCall))
  }

  function AfterData(t: nat, o: Outcome): ReaderPc {
    match o
    case Publish(event) => Sending(t, event)
    case Discard(tr, reason) => Counting(t, tr, reason)
  }

  function JudgeData(env: Env, s: State, t: nat, frame: RealtimeFrame, text: Bytes): (s': State)
    ensures ReaderFrame(s, s')
  {
    s.(run := Reader(AfterData(t, env.interpret(frame, text, Lookup(s.core, frame.tr)))),
       hist := Logged(s.hist, DataRead(t, frame, text)))
  }

  function JudgeGarbage(s: State, t: nat): (s': State)
    ensures ReaderFrame(s, s')
  {
    s.(run := Reader(Reading(t)), core := CountDrop(s.core, [], Unrecognised), hist := Logged(s.hist, GarbageRead(t)))
  }

  function JudgePing(s: State, t: nat): (s': State)
    ensures ReaderFrame(s, s')
  {
    s.(run := Reader(if s.core.transport.None? then Failing(ConnClosed) else Ponging(t)),
       hist := Logged(s.hist, PingRead(t)))
  }

  /** The waiter an ACK takes, and the transaction it is then attributed to. */
  function Taken(s: State, ack: AckMessage): (Option<Waiter>, Bytes) {
    var w := TakeMatch(s.core.pending, ack.tr).0;
    (w, Attributed(ack.tr, w))
  }

  function RefusalHistory(h: History, t: nat, tr: Bytes, ack: AckMessage, v: Verdict): History {
    h.(log := h.log + [AckRead(t, tr, false, ack.key, ack.iv)],
       obs := if v == Some(SessionOccupied) then h.obs + [AckOccupied]
              else if v.Some? && v.value.ApprovalRejected? then h.obs + [AckRejected] else h.obs)
  }

  function TakeAck(env: Env, s: State, t: nat, ack: AckMessage): (s': State)
    ensures ReaderFrame(s, s')
  {
    var (w, tr) := Taken(s, ack);
    var v := env.verdict(tr, ack);
    s.(core := s.core.(pending := TakeMatch(s.core.pending, ack.tr).1),
       run := Reader(if v == None then Clearing(t, tr, w, ack) else Delivering(t, w, v)),
       hist := if v == None then s.hist else RefusalHistory(s.hist, t, tr, ack, v))
  }

  function SendEvent(s: State, t: nat, event: Event): (s': State)
    ensures ReaderFrame(s, s')
  {
    s.(run := Reader(Reading(t)), buffer := s.buffer + [event])
  }

  function SkipEvent(s: State, t: nat): (s': State)
    ensures ReaderFrame(s, s')
  {
    s.(run := Reader(Reading(t)), skipped := true)
  }

  function CountOne(s: State, t: nat, tr: Bytes, reason: DropReason): (s': State)
    ensures ReaderFrame(s, s')
  {
    s.(run := Reader(Reading(t)), core := CountDrop(s.core, tr, reason))
  }

  function PongDone(s: State, r: ReaderPc): (s': State)
    requires r.Reading? || r.Failing?
    ensures ReaderFrame(s, s')
  {
    s.(run := Reader(r))
  }

  function ForgetRejection(s: State, t: nat, tr: Bytes, w: Option<Waiter>, ack: AckMessage): (s': State)
    ensures ReaderFrame(s, s')
  {
    s.(run := Reader(Storing(t, tr, w, ack)), core := Clear(s.core), hist := Observed(s.hist, AckAccepted))
  }

  function StoreStep(env: Env, s: State, t: nat, tr: Bytes, w: Option<Waiter>, ack: AckMessage): (s': State)
    ensures ReaderFrame(s, s')
  {
    s.(run := Reader(Delivering(t, w, None)), core := Keep(s.core, tr, env.store(tr, ack.key, ack.iv)),
       hist := Logged(s.hist, AckRead(t, tr, true, ack.key, ack.iv)))
  }

  function Deliver(s: State, t: nat, w: Option<Waiter>, v: Verdict): (s': State)
    ensures ReaderFrame(s, s')
  {
    s.(run := Reader(if Fatal(v) then Failing(v.value) else Reading(t)),
       reqs := if w.Some? then Resolve(s.reqs, w.value.id, v) else s.reqs)
  }

  function FailAll(s: State, err: Fault): (s': State)
    ensures ReaderFrame(s, s')
  {
    s.(run := Reader(Releasing(s.core.pending, err)), core := TakeAll(s.core))
  }

  function Release(s: State, ws: seq<Waiter>, err: Fault): (s': State)
    requires ws != []
    ensures ReaderFrame(s, s')
  {
    s.(run := Reader(Releasing(ws[1..], err)), reqs := Resolve(s.reqs, ws[0].id, Some(err)))
  }

  function Leave(s: State, err: Fault): (s': State)
    ensures ReaderFrame(s, s')
  {
    s.(run := Down(Deciding(err)))
  }

  // ---- run between two sockets: dropTransport, markRejection, reissue, sleep, redial ----

  function Hang(socks: seq<Socket>, t: Option<nat>): (r: seq<Socket>)
    ensures |r| == |socks| && forall i :: 0 <= i < |r| ==> r[i] == socks[i].(closed := r[i].closed)
  {
    if t.Some? && t.value < |socks| then socks[t.value := socks[t.value].(closed := true)] else socks
  }

  function Decide(s: State, err: Fault): (s': State)
    ensures DialFrame(s, s')
  {
    s.(run := if s.core.closed then End(ClosingEvents) else Down(Detaching(err)))
  }

  function DropTransport(s: State, err: Fault): (s': State)
    ensures DialFrame(s, s')
  {
    s.(run := Down(HangingUp(s.core.transport, err)), core := Detach(s.core))
  }

  /** Where `run` goes once the old socket is closed. */
  function AfterHangUp(err: Fault): RunPc {
    match err
    case SessionOccupied => End(Announcing)
    case ApprovalRejected(code) => Down(Marking(code))
    case _ => Up(Sleeping)
  }

  function HangUp(s: State, socket: Option<nat>, err: Fault): (s': State)
    ensures DialFrame(s, s')
  {
    s.(run := AfterHangUp(err), socks := Hang(s.socks, socket),
       attempt := if err.SessionOccupied? then s.attempt else s.attempt + 1)
  }

  function MarkStep(s: State, code: Bytes): (s': State)
    ensures DialFrame(s, s')
  {
    s.(core := Mark(s.core, code).1, run := if Mark(s.core, code).0 then Down(Reissuing) else Up(Sleeping))
  }

  function ReissueStep(s: State, key: Option<Bytes>): (s': State)
    ensures DialFrame(s, s')
  {
    s.(run := if key.Some? then Down(Rekeying(key.value)) else Up(Sleeping), hist := Observed(s.hist, ReissueCall(key)))
  }

  function SetKey(s: State, key: Bytes): (s': State)
    ensures DialFrame(s, s')
  {
    s.(run := Up(Sleeping), core := Rekey(s.core, key))
  }

  /** The timer fires, or `done` was closed first. */
  function EndSleep(s: State, fired: bool): (s': State)
    ensures DialFrame(s, s')
  {
    s.(run := if fired then Up(Waking) else End(ClosingEvents), hist := Observed(s.hist, Slept(s.attempt)))
  }

  function WakeCheck(s: State): (s': State)
    ensures DialFrame(s, s')
  {
    s.(run := if s.core.closed then End(ClosingEvents) else Up(Approving))
  }

  function ApproveStep(s: State, key: Option<Bytes>): (s': State)
    ensures DialFrame(s, s')
  {
    s.(run := if key.Some? then Up(Dialing(key.value)) else Reader(Top), hist := Observed(s.hist, ApprovalCall(key)))
  }

  function DialOk(s: State, key: Bytes): (s': State)
    ensures DialFrame(s, s')
  {
    s.(run := Up(Installing(key, |s.socks|)), socks := s.socks + [Socket(None, [], false)],
       hist := Observed(s.hist, DialCall(true)))
  }

  function DialError(s: State): (s': State)
    ensures DialFrame(s, s')
  {
    s.(run := Reader(Top), hist := Observed(s.hist, DialCall(false)))
  }

  /** `redial` finds the connection closed, or installs the socket and starts its resubscribe pass. */
  function InstallStep(s: State, key: Bytes, t: nat): (s': State)
    requires t < |s.socks|
    ensures DialFrame(s, s')
  {
    if s.core.closed then s.(run := Up(Discarding(t)))
    else
      s.(run := Reader(Top), core := Install(s.core, t, key),
         socks := s.socks[t := s.socks[t].(installed := Some(key))],
         passes := s.passes + [Pass(s.core.generation + 1, s.attempt, [], [], Snapshotting)])
  }

  function DiscardStep(s: State, t: nat): (s': State)
    ensures DialFrame(s, s')
  {
    s.(run := Reader(Top), socks := Hang(s.socks, Some(t)))
  }

  // ---- the stop notification and the deferred closes ----

  function Announce(s: State): (s': State)
    requires s.run == End(Announcing)
    ensures EndFrame(s, s')
  {
    s.(run := End(ClosingEvents),
       hist := Observed(s.hist, StoppedNotice).(notices := s.hist.notices + [Stopped(s.attempt)]))
  }

  function CloseEvents(s: State): (s': State)
    ensures EndFrame(s, s')
  {
    s.(run := End(ClosingStopped), eventsClosed := true, hist := Observed(s.hist, EventsClosed))
  }

  function CloseStopped(s: State): (s': State)
    ensures EndFrame(s, s')
  {
    s.(run := End(Ended), stopped := true, hist := Observed(s.hist, StoppedClosed))
  }

  // ---- request (kis/ws/conn.go) ----

  function FrameOf(r: Request, approval: Bytes): WireFrame {
    WireFrame(approval, r.subscribe, r.sub.tr, r.sub.key)
  }

  function Landed(h: History, landed: bool, t: nat, f: WireFrame, writer: Writer): History {
    if landed then h.(writes := h.writes + [Write(t, f, writer)]) else h
  }

  function Put(socks: seq<Socket>, t: nat, f: WireFrame): (r: seq<Socket>)
    requires t < |socks|
    ensures SameButWire(socks, r)
  {
    socks[t := socks[t].(wire := socks[t].wire + [f])]
  }

  function RefuseClosed(s: State, id: nat): (s': State)
    requires id < |s.reqs|
    ensures RequestFrame(s, s', id)
  {
    s.(reqs := s.reqs[id := s.reqs[id].(pc := Returned(Some(ConnClosed)))])
  }

  function RegisterStep(s: State, id: nat): (s': State)
    requires id < |s.reqs|
    ensures RequestFrame(s, s', id)
  {
    var r := s.reqs[id];
    s.(core := Register(s.core, r.subscribe, r.sub, Waiter(id, r.sub.tr)),
       reqs := s.reqs[id := r.(pc := Writing(s.core.transport, s.core.key), registered := Some(s.core.generation),
                               sending := if s.core.transport.None? then NoSocket else Untried)],
       hist := s.hist.(subOps := s.hist.subOps + [if r.subscribe then Add(r.sub, id) else Remove(r.sub, id)]))
  }

  /** There was no socket to write to. */
  function WriteNowhere(s: State, id: nat): (s': State)
    requires id < |s.reqs|
    ensures RequestFrame(s, s', id)
  {
    s.(reqs := s.reqs[id := s.reqs[id].(pc := Forgetting(ConnClosed, true))])
  }

  function WriteOk(s: State, id: nat, t: nat, approval: Bytes): (s': State)
    requires id < |s.reqs| && t < |s.socks|
    ensures RequestFrame(s, s', id)
  {
    var f := FrameOf(s.reqs[id], approval);
    s.(reqs := s.reqs[id := s.reqs[id].(pc := Waiting, sending := Sent)], socks := Put(s.socks, t, f),
       hist := Landed(s.hist, true, t, f, Requester(id)))
  }

  /** A failed write may still have put the frame on the wire. */
  function WriteError(s: State, id: nat, t: nat, approval: Bytes, landed: bool): (s': State)
    requires id < |s.reqs| && t < |s.socks|
    ensures RequestFrame(s, s', id)
  {
    var f := FrameOf(s.reqs[id], approval);
    s.(reqs := s.reqs[id := s.reqs[id].(pc := Forgetting(Broken, true), sending := Unwritten)],
       socks := if landed then Put(s.socks, t, f) else s.socks, hist := Landed(s.hist, landed, t, f, Requester(id)))
  }

  predicate Retracts(r: Request, v: Verdict) {
    r.subscribe && v.Some? && v.value.SubscribeError?
  }

  function ReceiveVerdict(s: State, id: nat): (s': State)
    requires id < |s.reqs| && s.reqs[id].slot.Some?
    ensures RequestFrame(s, s', id)
  {
    var r := s.reqs[id];
    var v := r.slot.value;
    s.(reqs := s.reqs[id := r.(slot := None, pc := if Retracts(r, v) then Retracting(v.value) else Returned(v))])
  }

  /** The caller's context ends, or the connection has stopped. */
  function Abandon(s: State, id: nat, err: Fault): (s': State)
    requires id < |s.reqs|
    ensures RequestFrame(s, s', id)
  {
    s.(reqs := s.reqs[id := s.reqs[id].(pc := Forgetting(err, false))])
  }

  function ForgetSelf(s: State, id: nat, err: Fault, unsent: bool): (s': State)
    requires id < |s.reqs|
    ensures RequestFrame(s, s', id)
  {
    var r := s.reqs[id];
    s.(core := Core.Forget(s.core, id),
       reqs := s.reqs[id := r.(pc := if unsent && r.subscribe then Retracting(err) else Returned(Some(err)))])
  }

  function RetractStep(s: State, id: nat, err: Fault): (s': State)
    requires id < |s.reqs|
    ensures RequestFrame(s, s', id)
  {
    var r := s.reqs[id];
    s.(core := DropSub(s.core, r.sub), reqs := s.reqs[id := r.(pc := Returned(Some(err)))],
       hist := s.hist.(subOps := s.hist.subOps + [Remove(r.sub, id)]))
  }

  // ---- resubscribe (kis/ws/reconnect.go) ----

  function SetPass(s: State, p: nat, pass: Pass): (s': State)
    requires p < |s.passes| && pass.generation == s.passes[p].generation && pass.attempt == s.passes[p].attempt
    ensures PassFrame(s, s', p)
  {
    s.(passes := s.passes[p := pass])
  }

  function Snapshot(s: State, p: nat): (s': State)
    requires p < |s.passes|
    ensures PassFrame(s, s', p)
  {
    SetPass(s, p, s.passes[p].(snapshot := s.core.subs, pc := Checking(0)))
  }

  function Check(s: State, p: nat, i: nat): (s': State)
    requires p < |s.passes|
    ensures PassFrame(s, s', p)
  {
    var pass := s.passes[p];
    SetPass(s, p, pass.(pc := if GenerationChanged(s.core, pass.generation) then Finished(false)
                              else if i < |pass.snapshot| then Issuing(i) else Notifying))
  }

  function Issue(s: State, p: nat, i: nat): (s': State)
    requires p < |s.passes| && i < |s.passes[p].snapshot|
    ensures PassFrame(s, s', p)
  {
    var pass := s.passes[p];
    s.(passes := s.passes[p := pass.(pc := Awaiting(i, |s.reqs|), ids := pass.ids + [|s.reqs|])],
       reqs := s.reqs + [NewRequest(PassOf(p), true, pass.snapshot[i])])
  }

  function Resume(s: State, p: nat, i: nat, failed: bool): (s': State)
    requires p < |s.passes|
    ensures PassFrame(s, s', p)
  {
    SetPass(s, p, s.passes[p].(pc := if failed then Rechecking(i) else Checking(i + 1)))
  }

  function Recheck(s: State, p: nat, i: nat): (s': State)
    requires p < |s.passes|
    ensures PassFrame(s, s', p)
  {
    var pass := s.passes[p];
    SetPass(s, p, pass.(pc := if GenerationChanged(s.core, pass.generation) then Finished(false) else Checking(i + 1)))
  }

  function Notify(s: State, p: nat): (s': State)
    requires p < |s.passes|
    ensures PassFrame(s, s', p)
  {
    var pass := s.passes[p];
    s.(passes := s.passes[p := pass.(pc := Finished(true))],
       hist := s.hist.(notices := s.hist.notices + [Restored(pass.generation, pass.attempt, |pass.snapshot|)]))
  }

  // ---- Close (kis/ws/conn.go) ----

  function BeginCloseStep(s: State): (s': State)
    ensures CloseFrame(s, s')
  {
    s.(core := BeginClose(s.core), closer := Unsubscribing(s.core.transport, s.core.key, s.core.subs, 0),
       hist := s.hist.(subOps := s.hist.subOps + [Reset],
                       farewell := Farewell(s.core.transport, s.core.key, s.core.subs, [])))
  }

  /** One best-effort unsubscribe: the loop goes on whether or not the write failed. */
  function UnsubscribeStep(s: State, t: nat, approval: Bytes, active: seq<Subscription>, i: nat, landed: bool)
    : (s': State)
    requires t < |s.socks| && i < |active|
    ensures CloseFrame(s, s') && s'.core == s.core && s'.done == s.done && SameButWire(s.socks, s'.socks)
  {
    var f := WireFrame(approval, false, active[i].tr, active[i].key);
    s.(closer := Unsubscribing(Some(t), approval, active, i + 1),
       socks := if landed then Put(s.socks, t, f) else s.socks,
       hist := Landed(s.hist, landed, t, f, Closing(i))
               .(farewell := s.hist.farewell.(sent := s.hist.farewell.sent + [f])))
  }

  function CloserTo(s: State, c: CloserPc): (s': State)
    ensures CloseFrame(s, s')
  {
    s.(closer := c)
  }

  function SignalDone(s: State, socket: Option<nat>): (s': State)
    ensures CloseFrame(s, s')
  {
    s.(closer := ClosingSocket(socket), done := true)
  }

  function CloseSocket(s: State, socket: Option<nat>): (s': State)
    ensures CloseFrame(s, s')
  {
    s.(closer := AwaitingStop(socket), socks := Hang(s.socks, socket))
  }

  // ---- the steps ----

  datatype ReaderAct =
    | DoEnter | DoReadMessage(text: Bytes) | DoReadError | DoJudge | DoSend | DoSkip | DoCount | DoPong(ok: bool)
    | DoForgetRejection | DoStore | DoDeliver | DoFailAll | DoRelease | DoLeave

  datatype DialAct =
    | DoDecide | DoDropTransport | DoHangUp | DoMark | DoReissue(key: Option<Bytes>) | DoSetKey
    | DoEndSleep(fired: bool)
    | DoWakeCheck | DoApprove(key: Option<Bytes>) | DoDial(ok: bool) | DoInstall | DoDiscard
    | DoAnnounce | DoCloseEvents | DoCloseStopped

  datatype RequestAct =
    | DoRegister | DoWrite(ok: bool, landed: bool) | DoReceive | DoCancel | DoSeeStopped | DoForget | DoRetract

  datatype Step =
    | ReaderTurn(r: ReaderAct)
    | DialTurn(d: DialAct)
    | RequestTurn(id: nat, a: RequestAct)
    | PassTurn(p: nat)
    | CloseTurn(landed: bool)
    | Consume
    | Call(subscribe: bool, sub: Subscription) // someone calls Subscribe or Unsubscribe

  function Judge(env: Env, s: State, t: nat, raw: Raw): (s': State)
    ensures ReaderFrame(s, s')
  {
    match raw
    case Data(frame, text) => JudgeData(env, s, t, frame, text)
    case Ping(_) => JudgePing(s, t)
    case Ack(ack) => TakeAck(env, s, t, ack)
    case Garbage => JudgeGarbage(s, t)
  }

  /** One turn of the reader, if it can take it. */
  function ReaderNext(env: Env, s: State, a: ReaderAct): (next: Option<State>)
    ensures next.Some? ==> s.run.Reader? && ReaderFrame(s, next.value)
  {
    if !s.run.Reader? then None else
      match (a, s.run.r)
      case (DoEnter, Top) => Some(Enter(s))
      case (DoReadMessage(text), Reading(t)) => Some(ReadMessage(env, s, t, text))
      case (DoReadError, Reading(t)) => Some(ReadError(s))
      case (DoJudge, Handling(t, raw)) => Some(Judge(env, s, t, raw))
      case (DoSend, Sending(t, event)) => if |s.buffer| < env.capacity then Some(SendEvent(s, t, event)) else None
      case (DoSkip, Sending(t, event)) => if s.done then Some(SkipEvent(s, t)) else None
      case (DoCount, Counting(t, tr, reason)) => Some(CountOne(s, t, tr, reason))
      case (DoPong(ok), Ponging(t)) => Some(PongDone(s, if ok then Reading(t) else Failing(Broken)))
      case (DoForgetRejection, Clearing(t, tr, w, ack)) => Some(ForgetRejection(s, t, tr, w, ack))
      case (DoStore, Storing(t, tr, w, ack)) => Some(StoreStep(env, s, t, tr, w, ack))
      case (DoDeliver, Delivering(t, w, v)) => Some(Deliver(s, t, w, v))
      case (DoFailAll, Failing(err)) => Some(FailAll(s, err))
      case (DoRelease, Releasing(ws, err)) => if ws != [] then Some(Release(s, ws, err)) else None
      case (DoLeave, Releasing(ws, err)) => if ws == [] then Some(Leave(s, err)) else None
      case _ => None
  }

  /** One turn of `run` outside `readLoop`. */
  function DialNext(s: State, a: DialAct): (next: Option<State>)
    ensures next.Some? ==> !s.run.Reader? && DialFrame(s, next.value)
  {
    match (a, s.run)
    case (DoDecide, Down(Deciding(err))) => Some(Decide(s, err))
    case (DoDropTransport, Down(Detaching(err))) => Some(DropTransport(s, err))
    case (DoHangUp, Down(HangingUp(socket, err))) => Some(HangUp(s, socket, err))
    case (DoMark, Down(Marking(code))) => Some(MarkStep(s, code))
    case (DoReissue(key), Down(Reissuing)) => if key != Some([]) then Some(ReissueStep(s, key)) else None
    case (DoSetKey, Down(Rekeying(key))) => Some(SetKey(s, key))
    case (DoEndSleep(fired), Up(Sleeping)) => if fired || s.done then Some(EndSleep(s, fired)) else None
    case (DoWakeCheck, Up(Waking)) => Some(WakeCheck(s))
    case (DoApprove(key), Up(Approving)) => if key != Some([]) then Some(ApproveStep(s, key)) else None
    case (DoDial(ok), Up(Dialing(key))) => Some(if ok then DialOk(s, key) else DialError(s))
    case (DoInstall, Up(Installing(key, t))) => if t < |s.socks| then Some(InstallStep(s, key, t)) else None
    case (DoDiscard, Up(Discarding(t))) => Some(DiscardStep(s, t))
    case (DoAnnounce, End(Announcing)) => Some(Announce(s))
    case (DoCloseEvents, End(ClosingEvents)) => Some(CloseEvents(s))
    case (DoCloseStopped, End(ClosingStopped)) => Some(CloseStopped(s))
    case _ => None
  }

  function RequestNext(s: State, id: nat, a: RequestAct): (next: Option<State>)
    ensures next.Some? ==> RequestFrame(s, next.value, id)
  {
    if id >= |s.reqs| then None else
      match (a, s.reqs[id].pc)
      case (DoRegister, Starting) => Some(if s.core.closed then RefuseClosed(s, id) else RegisterStep(s, id))
      case (DoWrite(ok, landed), Writing(socket, approval)) =>
        Some(if socket.None? || socket.value >= |s.socks| then WriteNowhere(s, id)
             else if ok then WriteOk(s, id, socket.value, approval)
             else WriteError(s, id, socket.value, approval, landed))
      case (DoReceive, Waiting) => if s.reqs[id].slot.Some? then Some(ReceiveVerdict(s, id)) else None
      case (DoCancel, Waiting) => Some(Abandon(s, id, Cancelled))
      case (DoSeeStopped, Waiting) => if s.stopped then Some(Abandon(s, id, ConnClosed)) else None
      case (DoForget, Forgetting(err, unsent)) => Some(ForgetSelf(s, id, err, unsent))
      case (DoRetract, Retracting(err)) => Some(RetractStep(s, id, err))
      case _ => None
  }

  function PassNext(s: State, p: nat): (next: Option<State>)
    ensures next.Some? ==> PassFrame(s, next.value, p)
  {
    if p >= |s.passes| then None else
      match s.passes[p].pc
      case Snapshotting => Some(Snapshot(s, p))
      case Checking(i) => Some(Check(s, p, i))
      case Issuing(i) => if i < |s.passes[p].snapshot| then Some(Issue(s, p, i)) else None
      case Awaiting(i, id) =>
        if id < |s.reqs| && s.reqs[id].pc.Returned? then Some(Resume(s, p, i, s.reqs[id].pc.result.Some?)) else None
      case Rechecking(i) => Some(Recheck(s, p, i))
      case Notifying => Some(Notify(s, p))
      case Finished(_) => None
  }

  function CloseNext(s: State, landed: bool): (next: Option<State>)
    ensures next.Some? ==> CloseFrame(s, next.value)
  {
    match s.closer
    case Idle => Some(BeginCloseStep(s))
    case Unsubscribing(socket, approval, active, i) =>
      Some(if socket.None? || socket.value >= |s.socks| || i >= |active| then CloserTo(s, Signalling(socket))
           else UnsubscribeStep(s, socket.value, approval, active, i, landed))
    case Signalling(socket) => Some(SignalDone(s, socket))
    case ClosingSocket(socket) => Some(CloseSocket(s, socket))
    case AwaitingStop(socket) => if s.stopped then Some(CloserTo(s, CloseReturned(socket))) else None
    case CloseReturned(_) => None
  }

  function ConsumeStep(s: State): State
    requires s.buffer != []
  {
    s.(consumed := s.consumed + [s.buffer[0]], buffer := s.buffer[1..])
  }

  function CallStep(s: State, subscribe: bool, sub: Subscription): State {
    s.(reqs := s.reqs + [NewRequest(Caller, subscribe, sub)])
  }

  function Next(env: Env, s: State, step: Step): Option<State> {
    match step
    case ReaderTurn(a) => ReaderNext(env, s, a)
    case DialTurn(a) => DialNext(s, a)
    case RequestTurn(id, a) => RequestNext(s, id, a)
    case PassTurn(p) => PassNext(s, p)
    case CloseTurn(landed) => CloseNext(s, landed)
    case Consume => if s.buffer == [] then None else Some(ConsumeStep(s))
    case Call(subscribe, sub) => Some(CallStep(s, subscribe, sub))
  }

  /** The state after a schedule, if every step of it was possible. */
  function Execute(env: Env, s: State, steps: seq<Step>): Option<State>
    decreases |steps|
  {
    if steps == [] then Some(s) else
      match Execute(env, s, steps[..|steps| - 1])
      case None => None
      case Some(mid) => Next(env, mid, steps[|steps| - 1])
  }
}
