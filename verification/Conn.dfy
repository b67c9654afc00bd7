/** kis/ws/conn.go and reconnect.go: the critical sections, in place. */
module Conn {
  import opened Prelude
  import opened Text
  import opened Protocol
  import opened Crypto
  import opened Pipeline
  import opened Core

  /** An outstanding request; `slot` is its channel of capacity one. */
  class PendingAck {
    const id: nat
    const tr: Bytes
    var slot: Option<Verdict>

    constructor (id: nat, tr: Bytes)
      ensures this.id == id && this.tr == tr && slot == None
    {
      this.id, this.tr, slot := id, tr, None;
    }

    /** Non-blocking send: a full channel keeps the verdict it has. */
    method Resolve(v: Verdict)
      modifies this
      ensures slot == if old(slot) == None then Some(v) else old(slot)
    {
      if slot == None {
        slot := Some(v);
      }
    }
  }

  function WaiterOf(p: PendingAck): Waiter {
    Waiter(p.id, p.tr)
  }

  function Waiters(pending: seq<PendingAck>): (ws: seq<Waiter>)
    ensures |ws| == |pending|
    ensures forall i :: 0 <= i < |ws| ==> ws[i] == WaiterOf(pending[i])
  {
    seq(|pending|, i requires 0 <= i < |pending| => WaiterOf(pending[i]))
  }

  class Conn {
    var transport: Option<nat>
    var key: Bytes
    var generation: nat
    var subs: seq<Subscription>
    var material: map<Bytes, Material>
    var pending: seq<PendingAck>
    var closed: bool
    var stats: Stats
    var reissuedFor: Bytes

    /** Distinct waiters have distinct identities. */
    ghost predicate Valid()
      reads this
    {
      forall i, j :: 0 <= i < j < |pending| ==> pending[i].id != pending[j].id
    }

    ghost function Model(): Shared
      reads this
    {
      Shared(transport, key, generation, subs, material, Waiters(pending), closed, stats, reissuedFor)
    }

    /** The state `Dial` starts the reader with. */
    constructor (key: Bytes)
      ensures Valid()
      ensures Model() == Shared(Some(0), key, 0, [], map[], [], false, Stats(0, [], None), [])
    {
      transport, this.key, generation := Some(0), key, 0;
      subs, material, pending, closed := [], map[], [], false;
      stats, reissuedFor := Stats(0, [], None), [];
    }

    method AddSubscription(s: Subscription)
      modifies this`subs
      ensures subs == AddSub(old(subs), s)
    {
      for i := 0 to |subs|
        invariant s !in subs[..i] && subs == old(subs)
      {
        if subs[i] == s {
          return;
        }
      }
      subs := subs + [s];
    }

    method RemoveSubscription(s: Subscription)
      modifies this`subs
      ensures subs == RemoveSub(old(subs), s)
    {
      var kept := [];
      for i := 0 to |subs|
        invariant subs == old(subs) && kept == RemoveSub(subs[..i], s)
      {
        assert subs[..i + 1][..i] == subs[..i];
        if subs[i] != s {
          kept := kept + [subs[i]];
        }
      }
      assert subs[..|subs|] == subs;
      subs := kept;
    }

    /** The critical section at the head of `request`. */
    method RegisterRequest(subscribe: bool, s: Subscription, wait: PendingAck)
      returns (ok: bool, socket: Option<nat>, approval: Bytes)
      requires Valid()
      requires forall p :: p in pending ==> p.id != wait.id
      modifies this
      ensures Valid()
      ensures ok == !old(closed)
      ensures ok ==> socket == old(transport) && approval == old(key)
      ensures Model() == if ok then Register(old(Model()), subscribe, s, WaiterOf(wait)) else old(Model())
    {
      if closed {
        return false, None, [];
      }
      ok, socket, approval := true, transport, key;
      if subscribe {
        AddSubscription(s);
      } else {
        RemoveSubscription(s);
      }
      pending := pending + [wait];
    }

    /** Scan for the oldest match and delete it in place. */
    method TakePending(tr: Bytes) returns (wait: PendingAck?)
      requires Valid()
      modifies this`pending
      ensures Valid()
      ensures var (w, after) := Take(old(Model()), tr);
              Model() == after && (wait == null <==> w == None) && (wait != null ==> w == Some(WaiterOf(wait)))
      ensures wait != null ==> wait in old(pending) && wait !in pending
    {
      for i := 0 to |pending|
        invariant pending == old(pending)
        invariant forall j :: 0 <= j < i ==> !Matches(WaiterOf(pending[j]), tr)
      {
        if tr == [] || pending[i].tr == tr {
          wait := pending[i];
          assert FirstMatch(Waiters(pending), tr) == i;
          pending := pending[..i] + pending[i + 1..];
          assert Waiters(pending) == Delete(Waiters(old(pending)), i);
          return;
        }
      }
      wait := null;
    }

    method ForgetWaiter(wait: PendingAck)
      requires Valid()
      modifies this`pending
      ensures Valid()
      ensures Model() == Forget(old(Model()), wait.id)
    {
      for i := 0 to |pending|
        invariant pending == old(pending)
        invariant forall j :: 0 <= j < i ==> pending[j].id != wait.id
      {
        if pending[i].id == wait.id {
          assert FirstId(Waiters(pending), wait.id) == i;
          pending := pending[..i] + pending[i + 1..];
          assert Waiters(pending) == Delete(Waiters(old(pending)), i);
          return;
        }
      }
    }

    /** Empties the list in one section, then resolves every waiter that was in it. */
    method FailPending(err: Fault)
      requires Valid()
      modifies this`pending, pending
      ensures Valid() && Model() == TakeAll(old(Model()))
      ensures forall p :: p in old(pending) ==>
                p.slot == if old(p.slot) == None then Some(Some(err)) else old(p.slot)
    {
      var waiters := pending;
      pending := [];
      for i := 0 to |waiters|
        invariant pending == []
        invariant forall j :: 0 <= j < i ==>
                    waiters[j].slot == if old(waiters[j].slot) == None then Some(Some(err)) else old(waiters[j].slot)
        invariant forall j :: i <= j < |waiters| ==> waiters[j].slot == old(waiters[j].slot)
        invariant unchanged(`transport, `key, `generation, `subs, `material, `closed, `stats, `reissuedFor)
      {
        assert forall j :: 0 <= j < |waiters| && j != i ==> waiters[j] != waiters[i];
        waiters[i].Resolve(Some(err));
      }
    }

    method MarkRejection(code: Bytes) returns (warranted: bool)
      modifies this`reissuedFor
      ensures (warranted, Model()) == Mark(old(Model()), code)
    {
      if reissuedFor == code {
        return false;
      }
      reissuedFor := code;
      return true;
    }

    method ClearRejection()
      modifies this`reissuedFor
      ensures Model() == Clear(old(Model()))
    {
      reissuedFor := [];
    }

    /** The section of `reissue` that replaces the key. */
    method SetKey(reissued: Bytes)
      modifies this`key
      ensures Model() == Rekey(old(Model()), reissued)
    {
      key := reissued;
    }

    /** Empties `transport` and hands the socket back for closing. */
    method DropTransport() returns (socket: Option<nat>)
      modifies this`transport
      ensures socket == old(transport) && Model() == Detach(old(Model()))
    {
      socket := transport;
      transport := None;
    }

    /** The section of `redial`: refuses once closed, else installs socket, key and a new generation. */
    method InstallTransport(t: nat, approval: Bytes) returns (installed: Option<nat>)
      modifies this
      ensures installed == if old(closed) then None else Some(old(generation) + 1)
      ensures Model() == if old(closed) then old(Model()) else Install(old(Model()), t, approval)
      ensures unchanged(`pending)
    {
      if closed {
        return None;
      }
      transport, key, material := Some(t), approval, map[];
      generation := generation + 1;
      return Some(generation);
    }

    /** Close's snapshot. */
    method SnapshotForClose() returns (active: seq<Subscription>, socket: Option<nat>, approval: Bytes)
      modifies this`closed, this`subs
      ensures active == old(subs) && socket == old(transport) && approval == old(key)
      ensures Model() == BeginClose(old(Model()))
    {
      closed := true;
      active := subs;
      subs := [];
      socket, approval := transport, key;
    }

    method StoreMaterial(tr: Bytes, rawKey: Bytes, rawIv: Bytes)
      modifies this`material, this`stats
      ensures Model() == Keep(old(Model()), tr, StoreOutcome(tr, rawKey, rawIv))
    {
      if tr == [] || Trim(rawKey) == [] || Trim(rawIv) == [] {
        return;
      }
      var made := NewMaterial(rawKey, rawIv);
      if made.Err? {
        CountDropped(tr, UnusableMaterial);
        return;
      }
      material := material[tr := made.value];
    }

    method CountDropped(tr: Bytes, reason: DropReason)
      modifies this`stats
      ensures Model() == CountDrop(old(Model()), tr, reason)
    {
      stats := Stats(stats.dropped + 1, tr, Some(reason));
    }

    method MaterialFor(tr: Bytes) returns (m: Option<Material>)
      ensures m == Lookup(Model(), tr)
    {
      m := if tr in material then Some(material[tr]) else None;
    }

    /**
     * `applyAck` when nothing else runs: the oldest match gets this ACK's own verdict, an
     * acceptance forgets the last rejection and keeps the material, and only a fatal verdict is
     * returned.
     */
    method ApplyAck(ack: AckMessage) returns (fatal: Verdict, ghost waiter: PendingAck?)
      requires Valid()
      modifies this, pending
      ensures Valid()
      ensures
        var (w, taken) := Take(old(Model()), ack.tr);
        var tr := if ack.tr == [] && w.Some? then w.value.tr else ack.tr;
        var v := ClassifyAck(tr, ack);
        && Model() == (if v == None then Keep(Clear(taken), tr, StoreOutcome(tr, ack.key, ack.iv)) else taken)
        && fatal == (if Fatal(v) then v else None)
        && (waiter != null ==> waiter in old(pending) && w == Some(WaiterOf(waiter)))
        && (waiter != null ==> waiter.slot == if old(waiter.slot) == None then Some(v) else old(waiter.slot))
        && (waiter == null ==> w == None)
      ensures forall p :: p in old(pending) && p != waiter ==> p.slot == old(p.slot)
    {
      var tr := ack.tr;
      var wait := TakePending(tr);
      waiter := wait;
      if tr == [] && wait != null {
        tr := wait.tr;
      }
      var verdict := ClassifyAck(tr, ack);
      if verdict == None {
        ClearRejection();
        StoreMaterial(tr, ack.key, ack.iv);
      }
      if wait != null {
        wait.Resolve(verdict);
      }
      fatal := if Fatal(verdict) then verdict else None;
    }
  }
}
