/**
 * The state that `Conn` guards with its mutex, as a value, and what each critical section of
 * kis/ws/conn.go, reconnect.go and reader.go does to it. Class `Conn` implements these
 * functions in place; module `Machine` interleaves them.
 */
module Core {
  import opened Prelude
  import opened Text
  import opened Crypto
  import opened Pipeline

  datatype Subscription = Subscription(tr: Bytes, key: Bytes)

  /** One outstanding request; `id` stands for the identity of the `pendingAck` pointer. */
  datatype Waiter = Waiter(id: nat, tr: Bytes)

  datatype Stats = Stats(dropped: nat, lastTr: Bytes, lastReason: Option<DropReason>)

  datatype Shared = Shared(
    transport: Option<nat>, // the socket in use, by dial order
    key: Bytes,
    generation: nat,
    subs: seq<Subscription>,
    material: map<Bytes, Material>,
    pending: seq<Waiter>,
    closed: bool,
    stats: Stats,
    reissuedFor: Bytes)

  // ---- subscriptions ----

  function AddSub(subs: seq<Subscription>, s: Subscription): seq<Subscription> {
    if s in subs then subs else subs + [s]
  }

  function RemoveSub(subs: seq<Subscription>, s: Subscription): seq<Subscription> {
    if subs == [] then [] else
      var front, last := subs[..|subs| - 1], subs[|subs| - 1];
      if last == s then RemoveSub(front, s) else RemoveSub(front, s) + [last]
  }

  // ---- outstanding requests ----

  predicate Matches(w: Waiter, tr: Bytes) {
    tr == [] || w.tr == tr
  }

  /** Position of the oldest waiter an ACK for `tr` can answer, or the length. */
  function FirstMatch(pending: seq<Waiter>, tr: Bytes): (i: nat)
    ensures i <= |pending|
    ensures i < |pending| ==> Matches(pending[i], tr)
    ensures forall j :: 0 <= j < i ==> !Matches(pending[j], tr)
  {
    if pending == [] || Matches(pending[0], tr) then 0 else
      var i := FirstMatch(pending[1..], tr);
      assert forall j :: 1 <= j < 1 + i ==> pending[j] == pending[1..][j - 1];
      1 + i
  }

  /** Position of the waiter with the given identity, or the length. */
  function FirstId(pending: seq<Waiter>, id: nat): (i: nat)
    ensures i <= |pending|
    ensures i < |pending| ==> pending[i].id == id
    ensures forall j :: 0 <= j < i ==> pending[j].id != id
  {
    if pending == [] || pending[0].id == id then 0 else
      var i := FirstId(pending[1..], id);
      assert forall j :: 1 <= j < 1 + i ==> pending[j] == pending[1..][j - 1];
      1 + i
  }

  function Delete<T>(s: seq<T>, i: nat): (r: seq<T>)
    requires i < |s|
    ensures |r| == |s| - 1
    ensures forall j :: 0 <= j < i ==> r[j] == s[j]
    ensures forall j :: i <= j < |r| ==> r[j] == s[j + 1]
  {
    s[..i] + s[i + 1..]
  }

  function TakeMatch(pending: seq<Waiter>, tr: Bytes): (Option<Waiter>, seq<Waiter>) {
    var i := FirstMatch(pending, tr);
    if i < |pending| then (Some(pending[i]), Delete(pending, i)) else (None, pending)
  }

  function RemoveId(pending: seq<Waiter>, id: nat): seq<Waiter> {
    var i := FirstId(pending, id);
    if i < |pending| then Delete(pending, i) else pending
  }

  // ---- critical sections ----

  /** The section at the head of `request`. */
  function Register(c: Shared, subscribe: bool, s: Subscription, w: Waiter): Shared {
    c.(subs := if subscribe then AddSub(c.subs, s) else RemoveSub(c.subs, s), pending := c.pending + [w])
  }

  function DropSub(c: Shared, s: Subscription): Shared {
    c.(subs := RemoveSub(c.subs, s))
  }

  function Take(c: Shared, tr: Bytes): (Option<Waiter>, Shared) {
    var (w, pending) := TakeMatch(c.pending, tr);
    (w, c.(pending := pending))
  }

  function Forget(c: Shared, id: nat): Shared {
    c.(pending := RemoveId(c.pending, id))
  }

  function TakeAll(c: Shared): Shared {
    c.(pending := [])
  }

  /** Whether a reissue is warranted, and the state after recording the rejection. */
  function Mark(c: Shared, code: Bytes): (bool, Shared) {
    if c.reissuedFor == code then (false, c) else (true, c.(reissuedFor := code))
  }

  function Clear(c: Shared): Shared {
    c.(reissuedFor := [])
  }

  function Rekey(c: Shared, key: Bytes): Shared {
    c.(key := key)
  }

  function Detach(c: Shared): Shared {
    c.(transport := None)
  }

  /** The installing branch of `redial`. */
  function Install(c: Shared, t: nat, key: Bytes): Shared {
    c.(transport := Some(t), key := key, material := map[], generation := c.generation + 1)
  }

  function BeginClose(c: Shared): Shared {
    c.(closed := true, subs := [])
  }

  function PutMaterial(c: Shared, tr: Bytes, m: Material): Shared {
    c.(material := c.material[tr := m])
  }

  function Lookup(c: Shared, tr: Bytes): Option<Material> {
    if tr in c.material then Some(c.material[tr]) else None
  }

  function CountDrop(c: Shared, tr: Bytes, reason: DropReason): Shared {
    c.(stats := Stats(c.stats.dropped + 1, tr, Some(reason)))
  }

  predicate GenerationChanged(c: Shared, generation: nat) {
    c.closed || c.generation != generation
  }

  /** What `storeMaterial` does once the ACK's fields have been judged. */
  function Keep(c: Shared, tr: Bytes, outcome: Stored): Shared {
    match outcome
    case Ignore => c
    case Unusable => CountDrop(c, tr, UnusableMaterial)
    case Store(m) => PutMaterial(c, tr, m)
  }
}
