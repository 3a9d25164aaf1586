/**
 * The global sliding-window admission gate of service/RateLimiter.ts.
 *
 * `Date.now()` is an explicit clock parameter and `delay(ms)` advances that
 * clock by `ms`; the self-recursive re-check after a wait is a loop.
 */
module RateLimiting {

  /** Constructor defaults: ten admissions per minute. */
  const DefaultMaxRequests: int := 10
  const DefaultWindowMs: int := 60000

  predicate Sorted(s: seq<int>) {
    forall i, j :: 0 <= i < j < |s| ==> s[i] <= s[j]
  }

  /** A timestamp is still inside the window at time `now`. */
  predicate InWindow(t: int, now: int, windowMs: int) {
    now - t < windowMs
  }

  /**
   * The pruning filter: the timestamps still inside the window, in their
   * original order.
   */
  function Prune(requests: seq<int>, now: int, windowMs: int): (kept: seq<int>)
    ensures |kept| <= |requests|
    ensures forall t :: t in kept <==> t in requests && InWindow(t, now, windowMs)
  {
    if requests == [] then []
    else if InWindow(requests[0], now, windowMs) then [requests[0]] + Prune(requests[1..], now, windowMs)
    else Prune(requests[1..], now, windowMs)
  }

  /** Pruning keeps a sorted sequence sorted. */
  lemma {:induction false} PruneKeepsSorted(s: seq<int>, now: int, windowMs: int)
    requires Sorted(s)
    ensures Sorted(Prune(s, now, windowMs))
  {
    if s != [] {
      assert Sorted(s[1..]) by {
        forall i, j | 0 <= i < j < |s[1..]| ensures s[1..][i] <= s[1..][j] {
          assert s[1..][i] == s[i + 1] && s[1..][j] == s[j + 1];
        }
      }
      PruneKeepsSorted(s[1..], now, windowMs);
      var rest := Prune(s[1..], now, windowMs);
      if InWindow(s[0], now, windowMs) {
        forall j | 0 <= j < |rest| ensures s[0] <= rest[j] {
          assert rest[j] in s[1..];
          var i :| 0 <= i < |s[1..]| && s[1..][i] == rest[j];
          assert s[i + 1] == rest[j];
        }
        assert Prune(s, now, windowMs) == [s[0]] + rest;
      }
    }
  }

  /** Pruning distributes over concatenation: it is an order-keeping filter. */
  lemma {:induction false} PruneAppend(a: seq<int>, b: seq<int>, now: int, windowMs: int)
    ensures Prune(a + b, now, windowMs) == Prune(a, now, windowMs) + Prune(b, now, windowMs)
  {
    if a == [] {
      assert a + b == b;
    } else {
      assert (a + b)[0] == a[0];
      assert (a + b)[1..] == a[1..] + b;
      PruneAppend(a[1..], b, now, windowMs);
      if InWindow(a[0], now, windowMs) {
        assert Prune(a, now, windowMs) == [a[0]] + Prune(a[1..], now, windowMs);
      } else {
        assert Prune(a, now, windowMs) == Prune(a[1..], now, windowMs);
      }
    }
  }

  /** A sequence entirely inside the window is kept as it is. */
  lemma {:induction false} PruneKeepsFresh(s: seq<int>, now: int, windowMs: int)
    requires forall i :: 0 <= i < |s| ==> InWindow(s[i], now, windowMs)
    ensures Prune(s, now, windowMs) == s
  {
    if s != [] {
      PruneKeepsFresh(s[1..], now, windowMs);
    }
  }

  /**
   * Pruning at a time and again at a later time is the same as pruning once
   * at the later time.
   */
  lemma {:induction false} PruneLater(s: seq<int>, earlier: int, later: int, windowMs: int)
    requires earlier <= later
    ensures Prune(Prune(s, earlier, windowMs), later, windowMs) == Prune(s, later, windowMs)
  {
    if s != [] {
      PruneLater(s[1..], earlier, later, windowMs);
    }
  }

  /** An element that has left the window makes the pruned sequence strictly shorter. */
  lemma {:induction false} PruneDropsStale(s: seq<int>, k: nat, now: int, windowMs: int)
    requires k < |s| && !InWindow(s[k], now, windowMs)
    ensures |Prune(s, now, windowMs)| < |s|
  {
    if k > 0 {
      PruneDropsStale(s[1..], k - 1, now, windowMs);
    }
  }

  /** Once every timestamp has left the window, nothing is kept. */
  lemma PruneAllStale(s: seq<int>, now: int, windowMs: int)
    requires forall i :: 0 <= i < |s| ==> !InWindow(s[i], now, windowMs)
    ensures Prune(s, now, windowMs) == []
  {
  }

  /** What `acquire` does with the already-pruned sequence. */
  datatype Decision = Admit | Wait(ms: int)

  /**
   * The full-window branch of `acquire`: a full window makes the caller wait
   * until the oldest admission leaves it. The source reads `requests[0]` of an empty
   * sequence as `undefined` (possible only when `maxRequests <= 0`), computes
   * a NaN wait, fails the `waitTime > 0` test and admits.
   */
  function Decide(pending: seq<int>, now: int, maxRequests: int, windowMs: int): Decision
  {
    if |pending| >= maxRequests && pending != [] && windowMs - (now - pending[0]) > 0 then
      Wait(windowMs - (now - pending[0]))
    else
      Admit
  }

  /**
   * After pruning, a full window always yields a positive wait: the
   * fall-through from a full window to admission without waiting happens
   * only for an empty window (a non-positive `maxRequests`).
   */
  lemma WaitAfterPrune(s: seq<int>, now: int, maxRequests: int, windowMs: int)
    ensures var pending := Prune(s, now, windowMs);
      var d := Decide(pending, now, maxRequests, windowMs);
      (d.Wait? <==> |pending| >= maxRequests && pending != []) &&
      (d.Wait? ==> d.ms > 0 && now + d.ms == pending[0] + windowMs)
  {
    var pending := Prune(s, now, windowMs);
    if pending != [] {
      assert pending[0] in pending;
    }
  }

  /**
   * While the oldest admission of a full window has not left it, the window
   * stays as it was: no reading before that moment has room.
   */
  lemma {:induction false} FullUntilOldestLeaves(s: seq<int>, clock: int, t: int, windowMs: int)
    requires Sorted(s)
    requires Prune(s, clock, windowMs) != [] && clock <= t < Prune(s, clock, windowMs)[0] + windowMs
    ensures Prune(s, t, windowMs) == Prune(s, clock, windowMs)
  {
    var pending := Prune(s, clock, windowMs);
    PruneLater(s, clock, t, windowMs);
    PruneKeepsSorted(s, clock, windowMs);
    forall i | 0 <= i < |pending| ensures InWindow(pending[i], t, windowMs) {
      assert pending[0] <= pending[i];
    }
    PruneKeepsFresh(pending, t, windowMs);
  }

  /**
   * `admittedAt` is the first clock reading from `now` at which the window
   * of `requests` has room: the window has room then (or is empty), a window
   * with room at `now` admits at once, and, for a sorted list, the window is
   * full at every reading before `admittedAt`.
   */
  predicate AdmittedAtFirstRoom(requests: seq<int>, now: int, admittedAt: int, maxRequests: int, windowMs: int) {
    now <= admittedAt &&
    (|Prune(requests, admittedAt, windowMs)| < maxRequests || Prune(requests, admittedAt, windowMs) == []) &&
    (|Prune(requests, now, windowMs)| < maxRequests ==> admittedAt == now) &&
    (Sorted(requests) ==> forall t :: now <= t < admittedAt ==>
      Prune(requests, t, windowMs) != [] && |Prune(requests, t, windowMs)| >= maxRequests)
  }

  class RateLimiter {
    const maxRequests: int
    const windowMs: int
    /** Admission timestamps, oldest first. */
    var requests: seq<int>

    constructor (maxRequests: int, windowMs: int)
      ensures this.maxRequests == maxRequests && this.windowMs == windowMs && requests == []
    {
      this.maxRequests := maxRequests;
      this.windowMs := windowMs;
      requests := [];
    }

    /**
     * Waits, from clock reading `now`, until the window has room, and
     * records the admission at the clock reading `admittedAt` it returns.
     */
    method Acquire(now: int) returns (admittedAt: int)
      modifies this
      ensures AdmittedAtFirstRoom(old(requests), now, admittedAt, maxRequests, windowMs)
      ensures requests == Prune(old(requests), admittedAt, windowMs) + [admittedAt]
      ensures maxRequests >= 1 ==> |requests| <= maxRequests
      ensures Sorted(old(requests)) && (forall i :: 0 <= i < |old(requests)| ==> old(requests)[i] <= now) ==> Sorted(requests)
    {
      var clock := now;
      requests := Prune(requests, clock, windowMs);
      WaitAfterPrune(old(requests), clock, maxRequests, windowMs);
      var d := Decide(requests, clock, maxRequests, windowMs);
      while d.Wait?
        invariant clock >= now
        invariant |Prune(old(requests), now, windowMs)| < maxRequests ==> clock == now
        invariant requests == Prune(old(requests), clock, windowMs)
        invariant d == Decide(requests, clock, maxRequests, windowMs)
        invariant d.Wait? <==> |requests| >= maxRequests && requests != []
        invariant d.Wait? ==> d.ms > 0 && clock + d.ms == requests[0] + windowMs
        invariant Sorted(old(requests)) ==> forall t :: now <= t < clock ==>
          Prune(old(requests), t, windowMs) != [] && |Prune(old(requests), t, windowMs)| >= maxRequests
        decreases |requests|
      {
        var pending := requests;
        clock := clock + d.ms;
        if Sorted(old(requests)) {
          forall t | now <= t < clock
            ensures Prune(old(requests), t, windowMs) != [] && |Prune(old(requests), t, windowMs)| >= maxRequests
          {
            if t >= clock - d.ms {
              FullUntilOldestLeaves(old(requests), clock - d.ms, t, windowMs);
            }
          }
        }
        PruneLater(old(requests), clock - d.ms, clock, windowMs);
        PruneDropsStale(pending, 0, clock, windowMs);
        requests := Prune(requests, clock, windowMs);
        WaitAfterPrune(old(requests), clock, maxRequests, windowMs);
        d := Decide(requests, clock, maxRequests, windowMs);
      }
      ghost var kept := requests;
      requests := requests + [clock];
      admittedAt := clock;
      if Sorted(old(requests)) && (forall i :: 0 <= i < |old(requests)| ==> old(requests)[i] <= now) {
        PruneKeepsSorted(old(requests), clock, windowMs);
        forall i | 0 <= i < |kept| ensures kept[i] <= clock {
          assert kept[i] in kept;
          var j :| 0 <= j < |old(requests)| && old(requests)[j] == kept[i];
        }
      }
    }

    /** Prunes at clock reading `now` and returns how many admissions remain in the window. */
    method GetRequestCount(now: int) returns (count: nat)
      modifies this
      ensures requests == Prune(old(requests), now, windowMs)
      ensures count == |requests|
    {
      requests := Prune(requests, now, windowMs);
      count := |requests|;
    }
  }

  /**
   * A full window has passed since the latest admission: the count is zero.
   */
  lemma CountAfterWindow(requests: seq<int>, latest: int, now: int, windowMs: int)
    requires forall i :: 0 <= i < |requests| ==> requests[i] <= latest
    requires now >= latest + windowMs
    ensures |Prune(requests, now, windowMs)| == 0
  {
    PruneAllStale(requests, now, windowMs);
  }
}
