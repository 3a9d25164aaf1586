/**
 * The arithmetic of the retry/fallback algorithm of service/EmailService.ts:
 * the provider rotation inside one round, the order of (round, provider)
 * attempts over all rounds, and the exponential backoff between rounds.
 */
module RetrySchedule {

  function Pow2(k: nat): (p: nat)
    ensures p >= 1
  {
    if k == 0 then 1 else 2 * Pow2(k - 1)
  }

  /** The wait after failed round `round`: `baseDelay * 2^round`. */
  function Backoff(baseDelay: nat, round: nat): nat {
    baseDelay * Pow2(round)
  }

  /** The waits after the first `rounds` rounds, added up. */
  function TotalBackoff(baseDelay: nat, rounds: nat): nat {
    if rounds == 0 then 0 else TotalBackoff(baseDelay, rounds - 1) + Backoff(baseDelay, rounds - 1)
  }

  /** The backoff waits form a geometric series: `baseDelay * (2^rounds - 1)`. */
  lemma {:induction false} TotalBackoffClosedForm(baseDelay: nat, rounds: nat)
    ensures TotalBackoff(baseDelay, rounds) == baseDelay * (Pow2(rounds) - 1)
  {
    if rounds > 0 {
      TotalBackoffClosedForm(baseDelay, rounds - 1);
      var p := Pow2(rounds - 1);
      assert Pow2(rounds) - 1 == (p - 1) + p;
      Distribute(baseDelay, p - 1, p);
    }
  }

  lemma Distribute(a: int, b: int, c: int)
    ensures a * (b + c) == a * b + a * c
  {
  }

  /**
   * The provider indices of one round: starting at the sticky index and
   * wrapping around the `n` providers.
   */
  function Rotation(start: nat, n: nat): seq<nat> {
    seq(n, i requires 0 <= i < n => (start + i) % n)
  }

  lemma ModWrap(x: int, n: int)
    requires 0 < n && 0 <= x < 2 * n
    ensures x % n == if x < n then x else x - n
  {
    if x >= n {
      assert x == 1 * n + (x - n);
    }
  }

  /**
   * One round, started at a valid sticky index, begins with that index and
   * tries every provider exactly once: its `n` entries are distinct indices
   * below `n`, and every index below `n` is among them.
   */
  lemma RotationVisitsEachOnce(start: nat, n: nat)
    requires start < n
    ensures var order := Rotation(start, n);
      |order| == n && order[0] == start &&
      (forall i :: 0 <= i < n ==> order[i] < n) &&
      (forall i, j :: 0 <= i < j < n ==> order[i] != order[j]) &&
      (forall p :: 0 <= p < n ==> p in order)
  {
    var order := Rotation(start, n);
    ModWrap(start, n);
    forall i, j | 0 <= i < j < n ensures order[i] != order[j] {
      ModWrap(start + i, n);
      ModWrap(start + j, n);
    }
    forall p | 0 <= p < n ensures p in order {
      var i := if p >= start then p - start else p + n - start;
      ModWrap(start + i, n);
      assert order[i] == p;
    }
  }

  /** One attempt position: retry round and provider index. */
  datatype Slot = Slot(round: nat, provider: nat)

  /** The attempts of round `round`, in order. */
  function RoundSlots(round: nat, start: nat, n: nat): seq<Slot> {
    seq(n, i requires 0 <= i < n => Slot(round, Rotation(start, n)[i]))
  }

  lemma RoundSlotAt(round: nat, start: nat, n: nat, i: nat)
    requires i < n
    ensures RoundSlots(round, start, n)[i] == Slot(round, (start + i) % n)
  {
    assert Rotation(start, n)[i] == (start + i) % n;
  }

  /** All attempts of the first `rounds` rounds, in order. */
  function Schedule(start: nat, n: nat, rounds: nat): seq<Slot> {
    if rounds == 0 then [] else Schedule(start, n, rounds - 1) + RoundSlots(rounds - 1, start, n)
  }

  lemma {:induction false} ScheduleLength(start: nat, n: nat, rounds: nat)
    ensures |Schedule(start, n, rounds)| == rounds * n
  {
    if rounds > 0 {
      ScheduleLength(start, n, rounds - 1);
      assert (rounds - 1) * n + n == rounds * n;
    }
  }

  /** The schedule of fewer rounds is a prefix of that of more rounds. */
  lemma {:induction false} ScheduleGrows(start: nat, n: nat, k: nat, rounds: nat)
    requires k <= rounds
    ensures |Schedule(start, n, k)| <= |Schedule(start, n, rounds)|
    ensures Schedule(start, n, rounds)[..|Schedule(start, n, k)|] == Schedule(start, n, k)
    decreases rounds
  {
    if k < rounds {
      ScheduleGrows(start, n, k, rounds - 1);
      var shorter := Schedule(start, n, rounds - 1);
      assert Schedule(start, n, rounds)[..|shorter|] == shorter;
    }
  }

  /**
   * The attempts made up to position `i` of round `k` are the first
   * `k * n + i` entries of any longer schedule.
   */
  lemma SchedulePrefix(start: nat, n: nat, k: nat, i: nat, rounds: nat)
    requires k < rounds && i <= n
    ensures k * n + i <= |Schedule(start, n, rounds)|
    ensures Schedule(start, n, k) + RoundSlots(k, start, n)[..i] == Schedule(start, n, rounds)[..k * n + i]
  {
    ScheduleLength(start, n, k);
    ScheduleGrows(start, n, k + 1, rounds);
    var next := Schedule(start, n, k + 1);
    assert next == Schedule(start, n, k) + RoundSlots(k, start, n);
    assert next[..k * n + i] == Schedule(start, n, k) + RoundSlots(k, start, n)[..i];
  }
}
