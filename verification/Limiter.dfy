/** kis/limiter.go: the client-side rate limiter. Times and durations are whole nanoseconds. */
module Limiter {
  function Max(a: int, b: int): int {
    if a < b then b else a
  }

  class Limiter {
    const interval: int
    var next: int
    ghost const start: int
    ghost var nows: seq<int> // the clock readings so far, cancelled waits included

    ghost predicate Valid()
      reads this
    {
      next == NextAfter(start, interval, nows)
    }

    constructor (next: int, interval: int)
      ensures Valid() && start == next && this.interval == interval && nows == []
    {
      this.next, this.interval, start, nows := next, interval, next, [];
    }

    /**
     * Reserves the next free slot under the mutex and then waits for it; `cancelled` says that the
     * caller's context wins that wait. A reservation is not handed back.
     */
    method Wait(now: int, cancelled: bool) returns (slot: int, wait: int, ok: bool)
      requires Valid()
      modifies this`next, this`nows
      ensures Valid() && nows == old(nows) + [now]
      ensures slot == Slots(start, interval, nows)[|old(nows)|]
      ensures wait == slot - now >= 0
      ensures ok == (wait == 0 || !cancelled)
    {
      slot := next;
      if slot < now {
        slot := now;
      }
      next := slot + interval;
      nows := nows + [now];
      assert nows[..|nows| - 1] == old(nows);
      wait := slot - now;
      if wait <= 0 {
        return slot, wait, true;
      }
      ok := !cancelled;
    }
  }

  /** The value of `next` after waits that read these clock values. */
  function NextAfter(next: int, interval: int, nows: seq<int>): int {
    if nows == [] then next else
      Max(NextAfter(next, interval, nows[..|nows| - 1]), nows[|nows| - 1]) + interval
  }

  /** The slots those waits have reserved. */
  function Slots(next: int, interval: int, nows: seq<int>): (slots: seq<int>)
    ensures |slots| == |nows|
  {
    if nows == [] then [] else
      var front := nows[..|nows| - 1];
      Slots(next, interval, front) + [Max(NextAfter(next, interval, front), nows[|nows| - 1])]
  }

  /** What reading number i (or, for i = 0, the initial state) demands of slot k. */
  function Demand(next: int, interval: int, nows: seq<int>, k: int, i: nat): int
    requires i <= |nows|
  {
    if i == 0 then next + k * interval else nows[i - 1] + (k - (i - 1)) * interval
  }

  predicate MeetsAll(next: int, interval: int, nows: seq<int>, k: nat, slot: int)
    requires k <= |nows|
  {
    && (forall i :: 0 <= i <= k ==> slot >= Demand(next, interval, nows, k, i))
    && (exists i :: 0 <= i <= k && slot == Demand(next, interval, nows, k, i))
  }

  lemma DemandNext(next: int, interval: int, nows: seq<int>, k: int, i: nat)
    requires i <= |nows|
    ensures Demand(next, interval, nows, k + 1, i) == Demand(next, interval, nows, k, i) + interval
  {
    if i > 0 {
      assert (k + 1 - (i - 1)) * interval == (k - (i - 1)) * interval + interval;
    } else {
      assert (k + 1) * interval == k * interval + interval;
    }
  }

  lemma DemandPrefix(next: int, interval: int, nows: seq<int>, now: int, k: int, i: nat)
    requires i <= |nows|
    ensures Demand(next, interval, nows + [now], k, i) == Demand(next, interval, nows, k, i)
  {}

  /** `next` is the largest demand on the slot after the last. */
  lemma {:induction false} NextIsLargest(next: int, interval: int, nows: seq<int>)
    ensures MeetsAll(next, interval, nows, |nows|, NextAfter(next, interval, nows))
    decreases |nows|
  {
    if nows == [] {
      assert NextAfter(next, interval, nows) == Demand(next, interval, nows, 0, 0);
    } else {
      var n := |nows| - 1;
      var front, now := nows[..n], nows[n];
      assert nows == front + [now];
      NextIsLargest(next, interval, front);
      var before, after, k := NextAfter(next, interval, front), NextAfter(next, interval, nows), n + 1;
      assert after == Max(before, now) + interval;
      forall i | 0 <= i <= k ensures after >= Demand(next, interval, nows, k, i) {
        if i <= n {
          DemandPrefix(next, interval, front, now, n + 1, i);
          DemandNext(next, interval, front, n, i);
        }
      }
      var i :| 0 <= i <= n && before == Demand(next, interval, front, n, i);
      DemandPrefix(next, interval, front, now, n + 1, i);
      DemandNext(next, interval, front, n, i);
      assert Demand(next, interval, nows, n + 1, n + 1) == now + interval;
      assert after == Demand(next, interval, nows, n + 1, if before < now then n + 1 else i);
    }
  }

  /**
   * Closed form: slot k is the largest of next + k*interval and, over the readings up to its own,
   * reading i + (k - i)*interval; the clock may run backwards.
   */
  lemma {:induction false} ClosedForm(next: int, interval: int, nows: seq<int>, k: nat)
    requires k < |nows|
    ensures
      var slot := Slots(next, interval, nows)[k];
      && (forall i :: 0 <= i <= k + 1 ==> slot >= Demand(next, interval, nows, k, i))
      && (exists i :: 0 <= i <= k + 1 && slot == Demand(next, interval, nows, k, i))
    decreases |nows|
  {
    var n := |nows| - 1;
    var front := nows[..n];
    var slot := Slots(next, interval, nows)[k];
    if k < n {
      ClosedForm(next, interval, front, k);
      assert forall i :: 0 <= i <= k + 1 ==> Demand(next, interval, nows, k, i) == Demand(next, interval, front, k, i);
      var i :| 0 <= i <= k + 1 && slot == Demand(next, interval, front, k, i);
      assert slot == Demand(next, interval, nows, k, i);
    } else {
      NextIsLargest(next, interval, nows);
      assert slot + interval == NextAfter(next, interval, nows);
      forall i | 0 <= i <= k + 1 ensures slot >= Demand(next, interval, nows, k, i) {
        DemandNext(next, interval, nows, k, i);
      }
      var i :| 0 <= i <= k + 1 && slot + interval == Demand(next, interval, nows, k + 1, i);
      DemandNext(next, interval, nows, k, i);
      assert slot == Demand(next, interval, nows, k, i);
    }
  }

  lemma {:induction false} SlotBeforeNext(next: int, interval: int, nows: seq<int>, i: nat)
    requires interval > 0 && i < |nows|
    ensures Slots(next, interval, nows)[i] + (|nows| - i) * interval <= NextAfter(next, interval, nows)
    decreases |nows|
  {
    var n := |nows| - 1;
    if i < n {
      SlotBeforeNext(next, interval, nows[..n], i);
      assert (n + 1 - i) * interval == (n - i) * interval + interval;
    } else {
      assert (n + 1 - i) * interval == interval;
    }
  }

  /** Later slots come at least one interval apart each. */
  lemma {:induction false} SlotsApart(next: int, interval: int, nows: seq<int>, i: nat, j: nat)
    requires interval > 0 && i < j < |nows|
    ensures Slots(next, interval, nows)[j] >= Slots(next, interval, nows)[i] + (j - i) * interval
    decreases |nows|
  {
    var front := nows[..|nows| - 1];
    if j < |nows| - 1 {
      SlotsApart(next, interval, front, i, j);
    } else {
      SlotBeforeNext(next, interval, front, i);
    }
  }

  /** The reservations that fall into a half-open window. */
  function InWindow(slots: seq<int>, start: int, width: int): set<int> {
    set k | 0 <= k < |slots| && start <= slots[k] < start + width
  }

  lemma {:induction false} SetInRange(s: set<int>, lo: int, size: nat)
    requires forall k :: k in s ==> lo <= k < lo + size
    ensures |s| <= size
  {
    if size == 0 {
      assert s == {} by {
        assert forall k :: k !in s;
      }
    } else {
      SetInRange(s - {lo + size - 1}, lo, size - 1);
    }
  }

  lemma FewFit(distance: int, interval: int, width: int)
    requires interval > 0 && distance >= 0 && distance * interval < width
    ensures distance < (width + interval - 1) / interval
  {
    var most := (width + interval - 1) / interval;
    assert most * interval >= width;
    assert distance >= most ==> distance * interval >= most * interval;
  }

  /** Rate limit: a window of this width never holds more than ceil(width / interval) reservations. */
  lemma AtMostRate(next: int, interval: int, nows: seq<int>, start: int, width: int)
    requires interval > 0 && width >= 0
    ensures |InWindow(Slots(next, interval, nows), start, width)| <= (width + interval - 1) / interval
  {
    var slots := Slots(next, interval, nows);
    var s := InWindow(slots, start, width);
    if x :| x in s {
      SmallestExists(s, x);
      var lo :| lo in s && forall k :: k in s ==> lo <= k;
      forall k | k in s ensures lo <= k < lo + (width + interval - 1) / interval {
        if lo < k {
          SlotsApart(next, interval, nows, lo, k);
        } else {
          assert (k - lo) * interval == 0;
        }
        FewFit(k - lo, interval, width);
      }
      SetInRange(s, lo, (width + interval - 1) / interval);
    }
  }

  lemma {:induction false} SmallestExists(s: set<int>, x: int)
    requires x in s
    ensures exists lo :: lo in s && forall k :: k in s ==> lo <= k
  {
    if smaller :| smaller in s && smaller < x {
      SmallestExists(s - {x}, smaller);
      var lo :| lo in s - {x} && forall k :: k in s - {x} ==> lo <= k;
      forall k | k in s ensures lo <= k {
        assert k == x || k in s - {x};
      }
      assert lo in s;
    }
  }
}
