/**
 * What the frames read should amount to, computed from the log of judged frames alone: which
 * events, which drops, and which decryption material each frame deserves.
 */
module Replay {
  import opened Prelude
  import opened Text
  import opened Crypto
  import opened Pipeline
  import opened Machine

  /** The entry delivers usable material for `tr` on socket t. */
  predicate Delivers(env: Env, e: Entry, t: nat, tr: Bytes) {
    e.AckRead? && e.accepted && e.t == t && e.tr == tr && env.store(tr, e.key, e.iv).Store?
  }

  /** The material of the latest delivering entry. */
  function Current(env: Env, log: seq<Entry>, t: nat, tr: Bytes): Option<Material> {
    if log == [] then None else
      var last := log[|log| - 1];
      if Delivers(env, last, t, tr) then Some(env.store(tr, last.key, last.iv).material)
      else Current(env, log[..|log| - 1], t, tr)
  }

  /** What a data frame amounts to after the frames before it. */
  function OutcomeAfter(env: Env, before: seq<Entry>, e: Entry): Outcome
    requires e.DataRead?
  {
    env.interpret(e.frame, e.text, Current(env, before, e.t, e.frame.tr))
  }

  datatype Drop = Drop(tr: Bytes, reason: DropReason)

  function EventsOf(env: Env, before: seq<Entry>, e: Entry): seq<Event> {
    if e.DataRead? && OutcomeAfter(env, before, e).Publish? then [OutcomeAfter(env, before, e).event] else []
  }

  /** Undecryptable data, unrecognised frames, and accepted ACKs with unusable material. */
  function DropsOf(env: Env, before: seq<Entry>, e: Entry): seq<Drop> {
    match e
    case DataRead(_, _, _) =>
      (match OutcomeAfter(env, before, e)
       case Publish(_) => []
       case Discard(tr, reason) => [Drop(tr, reason)])
    case GarbageRead(_) => [Drop([], Unrecognised)]
    case AckRead(_, tr, accepted, key, iv) =>
      if accepted && env.store(tr, key, iv).Unusable? then [Drop(tr, UnusableMaterial)] else []
    case PingRead(_) => []
  }

  function Events(env: Env, log: seq<Entry>): seq<Event> {
    if log == [] then [] else
      Events(env, log[..|log| - 1]) + EventsOf(env, log[..|log| - 1], log[|log| - 1])
  }

  function Drops(env: Env, log: seq<Entry>): seq<Drop> {
    if log == [] then [] else
      Drops(env, log[..|log| - 1]) + DropsOf(env, log[..|log| - 1], log[|log| - 1])
  }

  lemma Extend(env: Env, log: seq<Entry>, e: Entry)
    ensures Events(env, log + [e]) == Events(env, log) + EventsOf(env, log, e)
    ensures Drops(env, log + [e]) == Drops(env, log) + DropsOf(env, log, e)
    ensures forall t: nat, tr :: Current(env, log + [e], t, tr) ==
              if Delivers(env, e, t, tr) then Some(env.store(tr, e.key, e.iv).material) else Current(env, log, t, tr)
  {
    var longer := log + [e];
    assert longer[..|longer| - 1] == log && longer[|longer| - 1] == e;
  }

  /** Nothing has been delivered on a socket no frame was read from. */
  lemma {:induction false} NothingYet(env: Env, log: seq<Entry>, t: nat, tr: Bytes)
    requires forall i :: 0 <= i < |log| ==> log[i].t < t
    ensures Current(env, log, t, tr) == None
    decreases |log|
  {
    if log != [] {
      NothingYet(env, log[..|log| - 1], t, tr);
    }
  }

  /** Entry i is the latest delivery for `tr` on socket t. */
  predicate LatestDelivery(env: Env, log: seq<Entry>, t: nat, tr: Bytes, i: nat) {
    i < |log| && Delivers(env, log[i], t, tr) && forall j :: i < j < |log| ==> !Delivers(env, log[j], t, tr)
  }

  /** No material is in force exactly when no usable material was delivered. */
  lemma {:induction false} NoProvenance(env: Env, log: seq<Entry>, t: nat, tr: Bytes)
    ensures Current(env, log, t, tr) == None <==> forall i :: 0 <= i < |log| ==> !Delivers(env, log[i], t, tr)
    decreases |log|
  {
    if log != [] {
      var n := |log| - 1;
      NoProvenance(env, log[..n], t, tr);
      assert forall i :: 0 <= i < n ==> log[..n][i] == log[i];
    }
  }

  /** Entry i delivers m, and nothing after it delivers anything. */
  predicate LatestGives(env: Env, log: seq<Entry>, t: nat, tr: Bytes, i: nat, m: Material) {
    LatestDelivery(env, log, t, tr, i) && env.store(tr, log[i].key, log[i].iv) == Store(m)
  }

  /** An entry that delivers nothing leaves the latest delivery where it is. */
  lemma LatestStays(env: Env, log: seq<Entry>, e: Entry, t: nat, tr: Bytes, i: nat, m: Material)
    requires !Delivers(env, e, t, tr)
    ensures LatestGives(env, log + [e], t, tr, i, m) <==> LatestGives(env, log, t, tr, i, m)
  {
    var more := log + [e];
    assert more[|log|] == e;
    assert forall j :: 0 <= j < |log| ==> more[j] == log[j];
  }

  /**
   * Provenance: the material in force is that of the latest accepted ACK attributed to the same
   * transaction, with usable key and iv, read from the same socket.
   */
  lemma {:induction false} Provenance(env: Env, log: seq<Entry>, t: nat, tr: Bytes, m: Material)
    ensures Current(env, log, t, tr) == Some(m) <==> exists i: nat :: LatestGives(env, log, t, tr, i, m)
    decreases |log|
  {
    if log != [] {
      var n := |log| - 1;
      var before, e := log[..n], log[n];
      assert log == before + [e];
      if Delivers(env, e, t, tr) {
        LastGives(env, before, e, t, tr, m);
      } else {
        Provenance(env, before, t, tr, m);
        forall i: nat ensures LatestGives(env, log, t, tr, i, m) <==> LatestGives(env, before, t, tr, i, m) {
          LatestStays(env, before, e, t, tr, i, m);
        }
      }
    }
  }

  /** If the last entry delivers, it is the latest delivery. */
  lemma LastGives(env: Env, before: seq<Entry>, e: Entry, t: nat, tr: Bytes, m: Material)
    requires Delivers(env, e, t, tr)
    ensures Current(env, before + [e], t, tr) == Some(env.store(tr, e.key, e.iv).material)
    ensures env.store(tr, e.key, e.iv) == Store(m) <==> exists i: nat :: LatestGives(env, before + [e], t, tr, i, m)
  {
    var log := before + [e];
    assert log[|before|] == e;
    assert LatestDelivery(env, log, t, tr, |before|);
    assert LatestGives(env, log, t, tr, |before|, m) <==> env.store(tr, e.key, e.iv) == Store(m);
    forall i: nat | LatestGives(env, log, t, tr, i, m) ensures i == |before| {
      assert !(i < |before|);
    }
  }

  /** An order-preserving selection. */
  predicate Subsequence<T(==)>(a: seq<T>, b: seq<T>)
    decreases |b|
  {
    if a == [] then true
    else if b == [] then false
    else if a[|a| - 1] == b[|b| - 1] && Subsequence(a[..|a| - 1], b[..|b| - 1]) then true
    else Subsequence(a, b[..|b| - 1])
  }

  lemma SubsequenceBoth<T>(a: seq<T>, b: seq<T>, x: T)
    requires Subsequence(a, b)
    ensures Subsequence(a + [x], b + [x])
  {
    assert (a + [x])[..|a|] == a && (b + [x])[..|b|] == b;
  }

  lemma SubsequenceRight<T>(a: seq<T>, b: seq<T>, x: T)
    requires Subsequence(a, b)
    ensures Subsequence(a, b + [x])
  {
    assert (b + [x])[..|b|] == b;
  }

  lemma {:induction false} SubsequenceInit<T>(a: seq<T>, b: seq<T>)
    requires Subsequence(a, b) && a != []
    ensures Subsequence(a[..|a| - 1], b)
    decreases |b|
  {
    var b' := b[..|b| - 1];
    if a[|a| - 1] == b[|b| - 1] && Subsequence(a[..|a| - 1], b') {
      SubsequenceRight(a[..|a| - 1], b', b[|b| - 1]);
      assert b' + [b[|b| - 1]] == b;
    } else {
      SubsequenceInit(a, b');
      SubsequenceRight(a[..|a| - 1], b', b[|b| - 1]);
      assert b' + [b[|b| - 1]] == b;
    }
  }
}
