/**
 * The dispatch orchestrator of service/EmailService.ts: the attempt table,
 * idempotent submission, and the retry/fallback algorithm that routes every
 * delivery through the provider's circuit breaker.
 *
 * Providers are a sequence of names with an advisory health flag.  Their
 * `sendEmail` is an oracle `deliver(email, round, providerIndex)` giving the
 * call's outcome and how long it took.  Time is an explicit clock: the rate
 * limiter's waits, provider latencies and the backoff waits advance it.
 */
module EmailDispatch {
  import opened Options
  import opened CircuitBreakers
  import opened RateLimiting
  import opened Queueing
  import opened RetrySchedule

  datatype EmailStatus = Pending | Sent | Failed | Retrying

  datatype Email = Email(id: string, to: string, from: string, subject: string, body: string, timestamp: int)

  /** The per-message record; `lastAttempt` is a clock reading. */
  datatype EmailAttempt = EmailAttempt(
    id: string, email: Email, status: EmailStatus, attempts: nat, lastAttempt: int,
    provider: Option<string>, error: Option<string>)

  /** A delivery provider: its unique name and its (advisory) health flag. */
  datatype Provider = Provider(name: string, healthy: bool)

  /** What one provider call produced, and how many milliseconds it took. */
  datatype Reply = Reply(outcome: Outcome<bool>, latency: nat)

  /**
   * One pass through a provider's breaker: the round, the provider's index,
   * the clock reading `at` when the breaker was consulted, the breaker's
   * fields before and after, whether the provider was called, and the result.
   */
  datatype Try = Try(round: nat, provider: nat, at: int, breaker: Snapshot, breakerAfter: Snapshot,
                     invoked: bool, outcome: Outcome<bool>)

  /** The retry loop's variables between rounds: the record, the last error, the clock, the backoff waited and the tries. */
  datatype Progress = Progress(attempt: EmailAttempt, lastError: Option<string>, clock: int, backoff: nat, trace: seq<Try>)

  datatype ProviderStats = ProviderStats(name: string, healthy: bool, circuitState: Option<BreakerState>)

  /** Service defaults: three retries, one second of base delay. */
  const DefaultMaxRetries: nat := 3
  const DefaultBaseDelay: nat := 1000

  const UnknownError: string := "Unknown error"

  function SlotsOf(trace: seq<Try>): seq<Slot> {
    seq(|trace|, k requires 0 <= k < |trace| => Slot(trace[k].round, trace[k].provider))
  }

  /**
   * A try is one `execute` of a breaker with the service's default settings,
   * wrapping the provider's call: the breaker's new fields, whether the call
   * ran and its result are those of `ExecuteStep`.
   */
  predicate Answered(t: Try, email: Email, deliver: (Email, nat, nat) -> Reply) {
    var r := deliver(email, t.round, t.provider);
    Step(t.breakerAfter, t.outcome, t.invoked)
      == ExecuteStep(t.breaker, DefaultFailureThreshold, DefaultTimeout, t.at, r.outcome, t.at + r.latency)
  }

  /**
   * A try skips its provider only when the breaker was OPEN and still inside
   * its cooldown, and then it fails with the open-circuit error and leaves
   * the breaker as it was; otherwise the result is the provider's own answer.
   */
  lemma SkippedOnlyWhenOpen(t: Try, email: Email, deliver: (Email, nat, nat) -> Reply)
    requires Answered(t, email, deliver)
    ensures !t.invoked <==> t.breaker.state == Open && !CooledDown(t.breaker.lastFailureTime, DefaultTimeout, t.at)
    ensures !t.invoked ==> t.outcome == Raised(OpenMessage) && t.breakerAfter == t.breaker
    ensures t.invoked ==> t.outcome == deliver(email, t.round, t.provider).outcome
  {
  }

  /**
   * The breakers' fields, by provider name, after the tries of `trace`,
   * starting from `fields`: each try leaves its provider's breaker with the
   * fields it recorded.
   */
  function Replay(fields: map<string, Snapshot>, trace: seq<Try>, providers: seq<Provider>): map<string, Snapshot>
    decreases |trace|
  {
    if trace == [] then fields
    else
      var t := trace[|trace| - 1];
      var s := Replay(fields, trace[..|trace| - 1], providers);
      if t.provider < |providers| then s[providers[t.provider].name := t.breakerAfter] else s
  }

  /**
   * Every try of `trace` found its provider's breaker with the fields the
   * earlier tries left it with (those of `fields` for a breaker not used before).
   */
  predicate Chained(fields: map<string, Snapshot>, trace: seq<Try>, providers: seq<Provider>)
    decreases |trace|
  {
    trace == [] ||
    (Chained(fields, trace[..|trace| - 1], providers) &&
     var t := trace[|trace| - 1];
     var s := Replay(fields, trace[..|trace| - 1], providers);
     t.provider < |providers| && providers[t.provider].name in s && t.breaker == s[providers[t.provider].name])
  }

  /** One more try that found its breaker as the earlier tries left it extends the chain. */
  lemma {:induction false} ChainedAppend(fields: map<string, Snapshot>, trace: seq<Try>, t: Try, providers: seq<Provider>)
    requires Chained(fields, trace, providers) && t.provider < |providers|
    requires providers[t.provider].name in Replay(fields, trace, providers)
    requires t.breaker == Replay(fields, trace, providers)[providers[t.provider].name]
    ensures Chained(fields, trace + [t], providers)
    ensures Replay(fields, trace + [t], providers) == Replay(fields, trace, providers)[providers[t.provider].name := t.breakerAfter]
  {
    assert (trace + [t])[..|trace|] == trace;
    assert (trace + [t])[|trace|] == t;
  }

  /** Replaying two runs of tries one after the other is replaying their concatenation. */
  lemma {:induction false} ReplayConcat(fields: map<string, Snapshot>, a: seq<Try>, b: seq<Try>, providers: seq<Provider>)
    ensures Replay(fields, a + b, providers) == Replay(Replay(fields, a, providers), b, providers)
    ensures Chained(fields, a, providers) && Chained(Replay(fields, a, providers), b, providers) ==>
      Chained(fields, a + b, providers)
    decreases |b|
  {
    if b == [] {
      assert a + b == a;
    } else {
      var b' := b[..|b| - 1];
      ReplayConcat(fields, a, b', providers);
      assert (a + b)[..|a + b| - 1] == a + b';
      assert (a + b)[|a + b| - 1] == b[|b| - 1];
    }
  }

  /**
   * The breakers went from `fields` to `fieldsAfter` through the tries of
   * `trace`, each try finding its breaker as the earlier ones left it.
   */
  predicate Replays(fields: map<string, Snapshot>, trace: seq<Try>, providers: seq<Provider>, fieldsAfter: map<string, Snapshot>) {
    Chained(fields, trace, providers) && fieldsAfter == Replay(fields, trace, providers)
  }

  /** Two runs of tries, one after the other, replay as their concatenation. */
  lemma {:induction false} ReplaysConcat(fields: map<string, Snapshot>, a: seq<Try>, middle: map<string, Snapshot>, b: seq<Try>,
                                         providers: seq<Provider>, fieldsAfter: map<string, Snapshot>)
    requires Replays(fields, a, providers, middle) && Replays(middle, b, providers, fieldsAfter)
    ensures Replays(fields, a + b, providers, fieldsAfter)
  {
    ReplayConcat(fields, a, b, providers);
  }

  /** Every breaker's fields keep the state invariant (with the default threshold). */
  predicate AllConsistent(fields: map<string, Snapshot>) {
    forall name :: name in fields ==> Consistent(fields[name], DefaultFailureThreshold)
  }

  /** Along any chain of tries, every breaker keeps its state invariant. */
  lemma {:induction false} ReplayKeepsConsistent(fields: map<string, Snapshot>, trace: seq<Try>, providers: seq<Provider>,
                                                 email: Email, deliver: (Email, nat, nat) -> Reply)
    requires AllConsistent(fields) && Chained(fields, trace, providers) && AllAnswered(trace, email, deliver)
    ensures AllConsistent(Replay(fields, trace, providers))
    decreases |trace|
  {
    if trace != [] {
      var prefix, t := trace[..|trace| - 1], trace[|trace| - 1];
      assert AllAnswered(prefix, email, deliver) by {
        forall k | 0 <= k < |prefix| ensures Answered(prefix[k], email, deliver) {
          assert prefix[k] == trace[k];
        }
      }
      ReplayKeepsConsistent(fields, prefix, providers, email, deliver);
      var r := deliver(email, t.round, t.provider);
      ExecuteKeepsConsistent(t.breaker, DefaultFailureThreshold, DefaultTimeout, t.at, r.outcome, t.at + r.latency);
    }
  }

  /** The first try of a chain found its breaker with the fields it started with. */
  lemma {:induction false} ChainedFirst(fields: map<string, Snapshot>, trace: seq<Try>, providers: seq<Provider>)
    requires Chained(fields, trace, providers) && trace != []
    ensures trace[0].provider < |providers| && providers[trace[0].provider].name in fields
    ensures trace[0].breaker == fields[providers[trace[0].provider].name]
    decreases |trace|
  {
    if |trace| > 1 {
      var prefix := trace[..|trace| - 1];
      ChainedFirst(fields, prefix, providers);
      assert prefix[0] == trace[0];
    }
  }

  /** The provider latency spent by the tries of `trace`: that of the calls the breakers let through. */
  function Elapsed(trace: seq<Try>, email: Email, deliver: (Email, nat, nat) -> Reply): nat
    decreases |trace|
  {
    if trace == [] then 0
    else
      var t := trace[|trace| - 1];
      Elapsed(trace[..|trace| - 1], email, deliver) + (if t.invoked then deliver(email, t.round, t.provider).latency else 0)
  }

  /**
   * Every try of `trace` consulted its breaker when it was due: at `now`
   * plus the latency of the calls before it plus the backoff waited after
   * the rounds before its own.
   */
  predicate Timed(trace: seq<Try>, now: int, baseDelay: nat, email: Email, deliver: (Email, nat, nat) -> Reply)
    decreases |trace|
  {
    trace == [] ||
    (Timed(trace[..|trace| - 1], now, baseDelay, email, deliver) &&
     var t := trace[|trace| - 1];
     t.at == now + Elapsed(trace[..|trace| - 1], email, deliver) + TotalBackoff(baseDelay, t.round))
  }

  /** `Timed`, try by try: the `k`-th try was made after the latency of the first `k` and the backoff before its round. */
  lemma {:induction false} TimedMeans(trace: seq<Try>, now: int, baseDelay: nat, email: Email, deliver: (Email, nat, nat) -> Reply)
    ensures Timed(trace, now, baseDelay, email, deliver) <==>
      forall k :: 0 <= k < |trace| ==>
        trace[k].at == now + Elapsed(trace[..k], email, deliver) + TotalBackoff(baseDelay, trace[k].round)
    decreases |trace|
  {
    if trace != [] {
      var prefix := trace[..|trace| - 1];
      TimedMeans(prefix, now, baseDelay, email, deliver);
      forall k | 0 <= k < |prefix| ensures prefix[k] == trace[k] && prefix[..k] == trace[..k] {
      }
      var last := |trace| - 1;
      assert trace[..last] == prefix;
    }
  }

  /** The first try of a timed trace was made at `now` plus the backoff before its round. */
  lemma {:induction false} TimedFirst(trace: seq<Try>, now: int, baseDelay: nat, email: Email, deliver: (Email, nat, nat) -> Reply)
    requires Timed(trace, now, baseDelay, email, deliver) && trace != []
    ensures trace[0].at == now + TotalBackoff(baseDelay, trace[0].round)
    decreases |trace|
  {
    if |trace| > 1 {
      var prefix := trace[..|trace| - 1];
      TimedFirst(prefix, now, baseDelay, email, deliver);
      assert prefix[0] == trace[0];
    } else {
      assert trace[..0] == [];
    }
  }

  /** One more try made when due extends a timed trace, and adds its call's latency when the call ran. */
  lemma {:induction false} TimedAppend(trace: seq<Try>, t: Try, now: int, baseDelay: nat, email: Email, deliver: (Email, nat, nat) -> Reply)
    requires Timed(trace, now, baseDelay, email, deliver)
    requires t.at == now + Elapsed(trace, email, deliver) + TotalBackoff(baseDelay, t.round)
    ensures Timed(trace + [t], now, baseDelay, email, deliver)
    ensures Elapsed(trace + [t], email, deliver) ==
      Elapsed(trace, email, deliver) + if t.invoked then deliver(email, t.round, t.provider).latency else 0
  {
    assert (trace + [t])[..|trace|] == trace;
    assert (trace + [t])[|trace|] == t;
  }

  /**
   * Latency adds up over two runs of tries, and a run timed from the end of
   * another continues it.
   */
  lemma {:induction false} TimedConcat(a: seq<Try>, b: seq<Try>, now: int, baseDelay: nat, email: Email, deliver: (Email, nat, nat) -> Reply)
    ensures Elapsed(a + b, email, deliver) == Elapsed(a, email, deliver) + Elapsed(b, email, deliver)
    ensures Timed(a, now, baseDelay, email, deliver) && Timed(b, now + Elapsed(a, email, deliver), baseDelay, email, deliver) ==>
      Timed(a + b, now, baseDelay, email, deliver)
    decreases |b|
  {
    if b == [] {
      assert a + b == a;
    } else {
      var b' := b[..|b| - 1];
      TimedConcat(a, b', now, baseDelay, email, deliver);
      assert (a + b)[..|a + b| - 1] == a + b';
      assert (a + b)[|a + b| - 1] == b[|b| - 1];
    }
  }

  /**
   * The clock reading at which round `round` began, in a trace whose rounds
   * each hold `n` tries: `now`, the latency of the earlier rounds' calls, and
   * the backoff after them.
   */
  function RoundStart(trace: seq<Try>, n: nat, round: nat, now: int, baseDelay: nat,
                      email: Email, deliver: (Email, nat, nat) -> Reply): int
  {
    var before := if round * n <= |trace| then round * n else |trace|;
    now + Elapsed(trace[..before], email, deliver) + TotalBackoff(baseDelay, round)
  }

  predicate AllFailed(trace: seq<Try>) {
    forall k :: 0 <= k < |trace| ==> trace[k].outcome.Raised?
  }

  /** The error caught last, if any. */
  function LastError(trace: seq<Try>): Option<string> {
    if trace == [] || trace[|trace| - 1].outcome.Returned? then None
    else Some(trace[|trace| - 1].outcome.message)
  }

  /** `lastError?.message || 'Unknown error'`: no error, or an empty message, reads as unknown. */
  function ErrorText(lastError: Option<string>): (text: string)
    ensures text != ""
    ensures lastError.Some? && lastError.value != "" ==> text == lastError.value
    ensures !(lastError.Some? && lastError.value != "") ==> text == UnknownError
  {
    if lastError.Some? && lastError.value != "" then lastError.value else UnknownError
  }

  /** Processing has reached its end: the message was sent or given up on. */
  predicate Settled(a: EmailAttempt) {
    a.status == Sent || a.status == Failed
  }

  predicate AlreadySent(table: map<string, EmailAttempt>, id: string) {
    id in table && table[id].status == Sent
  }

  /** The tries follow the schedule of `rounds` rounds from sticky index `start`, as far as they go. */
  predicate FollowsSchedule(trace: seq<Try>, start: nat, n: nat, rounds: nat) {
    var schedule := Schedule(start, n, rounds);
    |trace| <= |schedule| && SlotsOf(trace) == schedule[..|trace|]
  }

  predicate AllAnswered(trace: seq<Try>, email: Email, deliver: (Email, nat, nat) -> Reply) {
    forall k :: 0 <= k < |trace| ==> Answered(trace[k], email, deliver)
  }

  /**
   * Processing ended with a delivery: the last try succeeded through
   * provider `index` after only failures, and the record became SENT with
   * that provider's name and the round's attempt number, nothing else of it
   * changed but the last-attempt time; the backoff waited is that of the
   * rounds before.
   */
  predicate SentOutcome(providers: seq<Provider>, baseDelay: nat, before: EmailAttempt, after: EmailAttempt,
                        trace: seq<Try>, backoff: nat, index: nat)
  {
    |trace| > 0 &&
    var last := trace[|trace| - 1];
    last.outcome.Returned? && AllFailed(trace[..|trace| - 1]) &&
    index == last.provider && index < |providers| &&
    after == before.(status := Sent, attempts := last.round + 1, lastAttempt := after.lastAttempt,
                     provider := Some(providers[index].name)) &&
    backoff == TotalBackoff(baseDelay, last.round)
  }

  /**
   * Processing gave up: every try of every round failed, and the record
   * became FAILED after `maxRetries + 1` attempts with the text of the last
   * error, nothing else of it changed but the last-attempt time; the backoff
   * waited is that after every round but the last.
   */
  predicate FailedOutcome(maxRetries: nat, baseDelay: nat, n: nat, before: EmailAttempt, after: EmailAttempt,
                          trace: seq<Try>, backoff: nat)
  {
    AllFailed(trace) && |trace| == (maxRetries + 1) * n &&
    after == before.(status := Failed, attempts := maxRetries + 1, lastAttempt := after.lastAttempt,
                     error := Some(ErrorText(LastError(trace)))) &&
    backoff == TotalBackoff(baseDelay, maxRetries)
  }

  /**
   * What processing the record `before` from clock reading `now` produced,
   * with the rotation starting at sticky index `start`: the tries follow
   * the round-by-round schedule, each one `execute` of its provider's
   * breaker made when due; processing ended at `finishedAt`, that is `now`
   * plus the latency of the calls that ran plus the backoff waited; the
   * record `after`, for the same message, carries the number of rounds run
   * and the clock reading at which the last one began; and either it is
   * SENT through provider `index`, the new sticky index, or it is FAILED
   * and the sticky index stays `start`.
   */
  predicate Handled(providers: seq<Provider>, maxRetries: nat, baseDelay: nat, start: nat, index: nat, now: int,
                    before: EmailAttempt, after: EmailAttempt, finishedAt: int, backoff: nat, trace: seq<Try>,
                    email: Email, deliver: (Email, nat, nat) -> Reply)
  {
    FollowsSchedule(trace, start, |providers|, maxRetries + 1) && AllAnswered(trace, email, deliver) &&
    Timed(trace, now, baseDelay, email, deliver) && finishedAt == now + Elapsed(trace, email, deliver) + backoff &&
    after.id == before.id && after.email == before.email && Settled(after) && after.attempts > 0 &&
    after.lastAttempt == RoundStart(trace, |providers|, after.attempts - 1, now, baseDelay, email, deliver) &&
    now <= after.lastAttempt <= finishedAt &&
    (after.status == Sent ==> SentOutcome(providers, baseDelay, before, after, trace, backoff, index)) &&
    (after.status == Failed ==> FailedOutcome(maxRetries, baseDelay, |providers|, before, after, trace, backoff) && index == start)
  }

  /**
   * The parts of the service that processing a message reads and changes,
   * at clock reading `clock`: the attempt table, the sticky index, the
   * limiter's admission list and the breakers' fields by provider name.
   */
  datatype ServiceState = ServiceState(table: map<string, EmailAttempt>, sticky: nat, requests: seq<int>,
                                       breakers: map<string, Snapshot>, clock: int)

  /** One `processEmailFromQueue` call: from `pre` to `post`, admitted at `admittedAt`, with its tries and backoff. */
  datatype Run = Run(email: Email, pre: ServiceState, post: ServiceState, admittedAt: int, backoff: nat, trace: seq<Try>)

  /**
   * `r` is one processing of `r.email`: the limiter admits it at the first
   * reading with room and records that admission; the retry algorithm then
   * handles its record from the admission time, moving the sticky index on
   * success; the breakers go through the tries in order; processing ends at
   * the post-state's clock; and no other record changes.
   */
  predicate Ran(providers: seq<Provider>, maxRetries: nat, baseDelay: nat, maxRequests: int, windowMs: int,
                r: Run, deliver: (Email, nat, nat) -> Reply)
  {
    var id := r.email.id;
    id in r.pre.table && id in r.post.table && r.post.table == r.pre.table[id := r.post.table[id]] &&
    AdmittedAtFirstRoom(r.pre.requests, r.pre.clock, r.admittedAt, maxRequests, windowMs) &&
    r.post.requests == Prune(r.pre.requests, r.admittedAt, windowMs) + [r.admittedAt] &&
    Handled(providers, maxRetries, baseDelay, r.pre.sticky, r.post.sticky, r.admittedAt, r.pre.table[id], r.post.table[id],
            r.post.clock, r.backoff, r.trace, r.email, deliver) &&
    Replays(r.pre.breakers, r.trace, providers, r.post.breakers)
  }

  /**
   * Where the processings `runs`, one after another from `s0`, left the
   * service: nothing when some processing did not start where the one
   * before ended or is not a processing of its message.
   */
  function DrainEnd(providers: seq<Provider>, maxRetries: nat, baseDelay: nat, maxRequests: int, windowMs: int,
                    runs: seq<Run>, s0: ServiceState, deliver: (Email, nat, nat) -> Reply): Option<ServiceState>
    decreases |runs|, 1
  {
    if runs == [] then Some(s0) else LastRunEnd(providers, maxRetries, baseDelay, maxRequests, windowMs, runs, s0, deliver)
  }

  /**
   * Where a non-empty drain left the service: its last processing must
   * start where the others ended.  Kept apart from `DrainEnd` so that
   * unfolding a drain once does not yet unfold its last processing.
   */
  function LastRunEnd(providers: seq<Provider>, maxRetries: nat, baseDelay: nat, maxRequests: int, windowMs: int,
                      runs: seq<Run>, s0: ServiceState, deliver: (Email, nat, nat) -> Reply): Option<ServiceState>
    requires runs != []
    decreases |runs|, 0
  {
    var last := runs[|runs| - 1];
    if DrainEnd(providers, maxRetries, baseDelay, maxRequests, windowMs, runs[..|runs| - 1], s0, deliver) == Some(last.pre) &&
       Ran(providers, maxRetries, baseDelay, maxRequests, windowMs, last, deliver)
    then Some(last.post)
    else None
  }

  /** `runs` took the service from `s0` to `s`, one processing after another, each starting where the one before ended. */
  predicate Drained(providers: seq<Provider>, maxRetries: nat, baseDelay: nat, maxRequests: int, windowMs: int,
                    runs: seq<Run>, s0: ServiceState, s: ServiceState, deliver: (Email, nat, nat) -> Reply)
  {
    DrainEnd(providers, maxRetries, baseDelay, maxRequests, windowMs, runs, s0, deliver) == Some(s)
  }

  /** One more processing, starting where the drain so far ended, extends the drain. */
  lemma {:induction false} DrainedStep(providers: seq<Provider>, maxRetries: nat, baseDelay: nat, maxRequests: int, windowMs: int,
                                       runs: seq<Run>, s0: ServiceState, r: Run, deliver: (Email, nat, nat) -> Reply)
    requires Drained(providers, maxRetries, baseDelay, maxRequests, windowMs, runs, s0, r.pre, deliver)
    requires Ran(providers, maxRetries, baseDelay, maxRequests, windowMs, r, deliver)
    ensures Drained(providers, maxRetries, baseDelay, maxRequests, windowMs, runs + [r], s0, r.post, deliver)
  {
    assert (runs + [r])[..|runs|] == runs;
  }

  /** A drain of one message is one processing from the state before to the state after. */
  lemma {:induction false} DrainedOne(providers: seq<Provider>, maxRetries: nat, baseDelay: nat, maxRequests: int, windowMs: int,
                                      r: Run, s0: ServiceState, s: ServiceState, deliver: (Email, nat, nat) -> Reply)
    requires Drained(providers, maxRetries, baseDelay, maxRequests, windowMs, [r], s0, s, deliver)
    ensures Ran(providers, maxRetries, baseDelay, maxRequests, windowMs, r, deliver) && r.pre == s0 && r.post == s
  {
    DrainedLast(providers, maxRetries, baseDelay, maxRequests, windowMs, [r], s0, s, deliver);
    assert [r][..0] == [] && [r][0] == r;
  }

  /** The last processing of a drain starts where the others ended and ends where the drain does. */
  lemma DrainedLast(providers: seq<Provider>, maxRetries: nat, baseDelay: nat, maxRequests: int, windowMs: int,
                    runs: seq<Run>, s0: ServiceState, s: ServiceState, deliver: (Email, nat, nat) -> Reply)
    requires Drained(providers, maxRetries, baseDelay, maxRequests, windowMs, runs, s0, s, deliver) && runs != []
    ensures var last := runs[|runs| - 1];
      Drained(providers, maxRetries, baseDelay, maxRequests, windowMs, runs[..|runs| - 1], s0, last.pre, deliver) &&
      Ran(providers, maxRetries, baseDelay, maxRequests, windowMs, last, deliver) && last.post == s
  {
    assert LastRunEnd(providers, maxRetries, baseDelay, maxRequests, windowMs, runs, s0, deliver) == Some(s);
  }

  /**
   * The limiter's list stays in admission order: if, before a processing,
   * the list is sorted and no entry is later than the clock, the same holds
   * after it, at the clock reading where it ended.
   */
  lemma {:induction false} RanKeepsAdmissionsOrdered(providers: seq<Provider>, maxRetries: nat, baseDelay: nat,
                                                     maxRequests: int, windowMs: int, r: Run, deliver: (Email, nat, nat) -> Reply)
    requires Ran(providers, maxRetries, baseDelay, maxRequests, windowMs, r, deliver)
    requires Sorted(r.pre.requests) && forall i :: 0 <= i < |r.pre.requests| ==> r.pre.requests[i] <= r.pre.clock
    ensures Sorted(r.post.requests) && forall i :: 0 <= i < |r.post.requests| ==> r.post.requests[i] <= r.post.clock
  {
    var kept := Prune(r.pre.requests, r.admittedAt, windowMs);
    PruneKeepsSorted(r.pre.requests, r.admittedAt, windowMs);
    forall i | 0 <= i < |kept| ensures kept[i] <= r.admittedAt {
      assert kept[i] in kept;
      assert kept[i] in r.pre.requests;
      var j :| 0 <= j < |r.pre.requests| && r.pre.requests[j] == kept[i];
    }
    assert r.post.requests == kept + [r.admittedAt];
  }

  /** A whole drain keeps the limiter's list in admission order. */
  lemma {:induction false} DrainKeepsAdmissionsOrdered(providers: seq<Provider>, maxRetries: nat, baseDelay: nat,
                                                       maxRequests: int, windowMs: int, runs: seq<Run>,
                                                       s0: ServiceState, s: ServiceState, deliver: (Email, nat, nat) -> Reply)
    requires Drained(providers, maxRetries, baseDelay, maxRequests, windowMs, runs, s0, s, deliver)
    requires Sorted(s0.requests) && forall i :: 0 <= i < |s0.requests| ==> s0.requests[i] <= s0.clock
    ensures Sorted(s.requests) && forall i :: 0 <= i < |s.requests| ==> s.requests[i] <= s.clock
    decreases |runs|
  {
    if runs != [] {
      var last := runs[|runs| - 1];
      DrainedLast(providers, maxRetries, baseDelay, maxRequests, windowMs, runs, s0, s, deliver);
      DrainKeepsAdmissionsOrdered(providers, maxRetries, baseDelay, maxRequests, windowMs, runs[..|runs| - 1], s0, last.pre, deliver);
      RanKeepsAdmissionsOrdered(providers, maxRetries, baseDelay, maxRequests, windowMs, last, deliver);
    }
  }

  /**
   * Stickiness across messages: when a processing ends SENT and the next
   * one starts from its sticky index, the next message's first try goes to
   * the provider that delivered the previous one.
   */
  lemma StickyCarriesOver(providers: seq<Provider>, maxRetries: nat, baseDelay: nat, maxRequests: int, windowMs: int,
                          r1: Run, r2: Run, deliver: (Email, nat, nat) -> Reply)
    requires Ran(providers, maxRetries, baseDelay, maxRequests, windowMs, r1, deliver)
    requires Ran(providers, maxRetries, baseDelay, maxRequests, windowMs, r2, deliver)
    requires r2.pre.sticky == r1.post.sticky && r1.post.table[r1.email.id].status == Sent && r2.trace != []
    ensures r1.trace != [] && r2.trace[0].provider == r1.trace[|r1.trace| - 1].provider
  {
    FirstAttemptIsSticky(r2.pre.sticky, |providers|, maxRetries + 1);
    assert SlotsOf(r2.trace)[0] == Slot(r2.trace[0].round, r2.trace[0].provider);
  }

  /** The ids of the messages in `emails`. */
  function Ids(emails: seq<Email>): (ids: set<string>)
    ensures forall k :: 0 <= k < |emails| ==> emails[k].id in ids
  {
    if emails == [] then {} else Ids(emails[..|emails| - 1]) + {emails[|emails| - 1].id}
  }

  /** Moving the head of the queue to the end of the handed messages keeps their concatenation. */
  lemma {:induction false} MovedToHanded(handed: seq<Email>, email: Email, rest: seq<Email>, all: seq<Email>)
    requires handed + ([email] + rest) == all
    ensures (handed + [email]) + rest == all
  {
    assert (handed + [email]) + rest == handed + ([email] + rest);
  }

  /**
   * `table` is `table0` after processing the messages `handed`: the same
   * ids, every handed message's record settled, every other record as it
   * was, and no record's message changed.
   */
  ghost predicate Processed(table0: map<string, EmailAttempt>, table: map<string, EmailAttempt>, handed: seq<Email>) {
    table.Keys == table0.Keys &&
    (forall id :: id in table0 && id !in Ids(handed) ==> table[id] == table0[id]) &&
    (forall id :: id in table0 ==> table[id].email == table0[id].email) &&
    (forall id :: id in Ids(handed) ==> id in table && Settled(table[id]))
  }

  /** Settling one more message's record extends a `Processed` table. */
  lemma {:induction false} ProcessedStep(table0: map<string, EmailAttempt>, table: map<string, EmailAttempt>, handed: seq<Email>,
                      email: Email, settled: EmailAttempt)
    requires Processed(table0, table, handed) && email.id in table
    requires settled.email == table[email.id].email && Settled(settled)
    ensures Processed(table0, table[email.id := settled], handed + [email])
  {
    var handed' := handed + [email];
    assert handed'[..|handed'| - 1] == handed;
    assert Ids(handed') == Ids(handed) + {email.id};
  }

  /** The last processing of a drain settles its own record and leaves the others alone. */
  lemma DrainedLastSettles(providers: seq<Provider>, maxRetries: nat, baseDelay: nat, maxRequests: int, windowMs: int,
                           runs: seq<Run>, s0: ServiceState, s: ServiceState, deliver: (Email, nat, nat) -> Reply)
    requires Drained(providers, maxRetries, baseDelay, maxRequests, windowMs, runs, s0, s, deliver) && runs != []
    ensures var last, id := runs[|runs| - 1], runs[|runs| - 1].email.id;
      Drained(providers, maxRetries, baseDelay, maxRequests, windowMs, runs[..|runs| - 1], s0, last.pre, deliver) &&
      s == last.post && id in last.pre.table && id in s.table && s.table == last.pre.table[id := s.table[id]] &&
      s.table[id].email == last.pre.table[id].email && Settled(s.table[id])
  {
    DrainedLast(providers, maxRetries, baseDelay, maxRequests, windowMs, runs, s0, s, deliver);
  }

  /** A drain processes exactly the messages of its runs: it settles their records and leaves every other one alone. */
  lemma {:induction false} DrainedProcessed(providers: seq<Provider>, maxRetries: nat, baseDelay: nat, maxRequests: int, windowMs: int,
                                            runs: seq<Run>, s0: ServiceState, s: ServiceState, handed: seq<Email>,
                                            deliver: (Email, nat, nat) -> Reply)
    requires Drained(providers, maxRetries, baseDelay, maxRequests, windowMs, runs, s0, s, deliver)
    requires |runs| == |handed| && forall k :: 0 <= k < |runs| ==> runs[k].email == handed[k]
    ensures Processed(s0.table, s.table, handed)
    decreases |runs|
  {
    if runs == [] {
      assert Ids(handed) == {};
    } else {
      var last, n := runs[|runs| - 1], |runs| - 1;
      DrainedLastSettles(providers, maxRetries, baseDelay, maxRequests, windowMs, runs, s0, s, deliver);
      DrainedProcessed(providers, maxRetries, baseDelay, maxRequests, windowMs, runs[..n], s0, last.pre, handed[..n], deliver);
      assert last.email == handed[n] && handed[..n] + [handed[n]] == handed;
      ProcessedStep(s0.table, last.pre.table, handed[..n], last.email, last.post.table[last.email.id]);
    }
  }

  lemma {:induction false} FailedConcat(before: seq<Try>, tries: seq<Try>)
    requires AllFailed(before) && AllFailed(tries)
    ensures AllFailed(before + tries)
  {
    forall k | 0 <= k < |before + tries|
      ensures (before + tries)[k].outcome.Raised?
    {
      if k >= |before| {
        assert (before + tries)[k] == tries[k - |before|];
      }
    }
  }

  /** Failures before the last try of a round, after failed rounds, are failures before the last try overall. */
  lemma {:induction false} FailedBeforeLast(before: seq<Try>, tries: seq<Try>)
    requires AllFailed(before) && |tries| > 0 && AllFailed(tries[..|tries| - 1])
    ensures AllFailed((before + tries)[..|before + tries| - 1])
  {
    assert (before + tries)[..|before + tries| - 1] == before + tries[..|tries| - 1];
    FailedConcat(before, tries[..|tries| - 1]);
  }

  lemma {:induction false} AnsweredConcat(before: seq<Try>, tries: seq<Try>, email: Email, deliver: (Email, nat, nat) -> Reply)
    requires AllAnswered(before, email, deliver) && AllAnswered(tries, email, deliver)
    ensures AllAnswered(before + tries, email, deliver)
  {
    forall k | 0 <= k < |before + tries|
      ensures Answered((before + tries)[k], email, deliver)
    {
      if k >= |before| {
        assert (before + tries)[k] == tries[k - |before|];
      }
    }
  }

  /**
   * Filing a fresh record for `email` and processing that one message
   * leaves every other record of `before` as it was.
   */
  lemma {:induction false} ProcessedOne(before: map<string, EmailAttempt>, filed: EmailAttempt, table: map<string, EmailAttempt>, email: Email)
    requires Processed(before[email.id := filed], table, [email])
    ensures email.id in table && table == before[email.id := table[email.id]]
    ensures table[email.id].email == filed.email && Settled(table[email.id])
  {
    assert Ids([email]) == {email.id} by { assert [email][..0] == []; }
    assert [email][0] == email;
  }

  /** A pass through the next provider of the rotation extends a round's tries by that provider's slot. */
  lemma {:induction false} TryAppended(before: seq<Try>, t: Try, round: nat, start: nat, n: nat, i: nat,
                    email: Email, deliver: (Email, nat, nat) -> Reply)
    requires i < n && |before| == i && SlotsOf(before) == RoundSlots(round, start, n)[..i]
    requires AllAnswered(before, email, deliver) && Answered(t, email, deliver)
    requires t.round == round && t.provider == (start + i) % n
    ensures SlotsOf(before + [t]) == RoundSlots(round, start, n)[..i + 1]
    ensures AllAnswered(before + [t], email, deliver)
  {
    AnsweredConcat(before, [t], email, deliver);
    RoundSlotAt(round, start, n, i);
    assert SlotsOf(before + [t]) == SlotsOf(before) + [Slot(round, t.provider)];
    assert RoundSlots(round, start, n)[..i + 1] == RoundSlots(round, start, n)[..i] + [Slot(round, t.provider)];
  }

  /**
   * `tries` are the first passes of round `round` of the rotation from
   * `start`, begun at clock reading `now`: in rotation order, each one
   * `execute` of its provider's breaker made when due, the clock at `now`
   * plus their calls' latency, and the breakers gone from `fields0` to
   * `fields` through them.
   */
  predicate RoundSoFar(providers: seq<Provider>, baseDelay: nat, tries: seq<Try>, round: nat, start: nat, now: int, clock: int,
                       email: Email, deliver: (Email, nat, nat) -> Reply,
                       fields0: map<string, Snapshot>, fields: map<string, Snapshot>)
  {
    |tries| <= |providers| && SlotsOf(tries) == RoundSlots(round, start, |providers|)[..|tries|] &&
    AllAnswered(tries, email, deliver) && Replays(fields0, tries, providers, fields) &&
    clock == now + Elapsed(tries, email, deliver) &&
    Timed(tries, now - TotalBackoff(baseDelay, round), baseDelay, email, deliver)
  }

  /**
   * The next provider of the rotation, tried through its breaker at the
   * current clock reading, extends the round; the clock advances by the
   * call's latency when the call ran.
   */
  lemma {:induction false} RoundExtends(providers: seq<Provider>, baseDelay: nat, tries: seq<Try>, t: Try,
                                        round: nat, start: nat, now: int, clock: int, after: int,
                                        email: Email, deliver: (Email, nat, nat) -> Reply,
                                        fields0: map<string, Snapshot>, fields: map<string, Snapshot>, fieldsAfter: map<string, Snapshot>)
    requires RoundSoFar(providers, baseDelay, tries, round, start, now, clock, email, deliver, fields0, fields)
    requires |tries| < |providers| && t.round == round && t.provider == (start + |tries|) % |providers|
    requires t.at == clock && Answered(t, email, deliver)
    requires providers[t.provider].name in fields && t.breaker == fields[providers[t.provider].name]
    requires fieldsAfter == fields[providers[t.provider].name := t.breakerAfter]
    requires after == if t.invoked then clock + deliver(email, round, t.provider).latency else clock
    ensures RoundSoFar(providers, baseDelay, tries + [t], round, start, now, after, email, deliver, fields0, fieldsAfter)
    ensures (tries + [t])[..|tries|] == tries && (tries + [t])[|tries|] == t
    ensures AllFailed(tries) && t.outcome.Raised? ==> AllFailed(tries + [t])
  {
    TimedAppend(tries, t, now - TotalBackoff(baseDelay, round), baseDelay, email, deliver);
    TryAppended(tries, t, round, start, |providers|, |tries|, email, deliver);
    ChainedAppend(fields0, tries, t, providers);
    if AllFailed(tries) && t.outcome.Raised? {
      FailedConcat(tries, [t]);
    }
  }

  /** A round in which every provider failed extends a schedule-following, all-failed trace by that round. */
  lemma {:induction false} FailedRoundAppends(before: seq<Try>, tries: seq<Try>, start: nat, n: nat, round: nat,
                            email: Email, deliver: (Email, nat, nat) -> Reply)
    requires SlotsOf(before) == Schedule(start, n, round) && AllFailed(before) && AllFailed(tries)
    requires |tries| == n && SlotsOf(tries) == RoundSlots(round, start, n)[..|tries|]
    requires AllAnswered(before, email, deliver) && AllAnswered(tries, email, deliver)
    ensures SlotsOf(before + tries) == Schedule(start, n, round + 1) && AllFailed(before + tries)
    ensures AllAnswered(before + tries, email, deliver)
    ensures LastError(before + tries) == if tries == [] then LastError(before) else Some(tries[|tries| - 1].outcome.message)
  {
    AnsweredConcat(before, tries, email, deliver);
    FailedConcat(before, tries);
    assert SlotsOf(before + tries) == SlotsOf(before) + SlotsOf(tries);
    assert RoundSlots(round, start, n)[..n] == RoundSlots(round, start, n);
  }

  /** A round that ends in a success, after failed full rounds, leaves a trace that follows the schedule. */
  lemma {:induction false} SucceededRoundEnds(before: seq<Try>, tries: seq<Try>, start: nat, n: nat, round: nat, rounds: nat,
                            email: Email, deliver: (Email, nat, nat) -> Reply)
    requires round < rounds && SlotsOf(before) == Schedule(start, n, round) && AllFailed(before)
    requires 0 < |tries| <= n && SlotsOf(tries) == RoundSlots(round, start, n)[..|tries|]
    requires AllFailed(tries[..|tries| - 1])
    requires AllAnswered(before, email, deliver) && AllAnswered(tries, email, deliver)
    ensures FollowsSchedule(before + tries, start, n, rounds) && AllAnswered(before + tries, email, deliver)
    ensures (before + tries)[|before + tries| - 1] == tries[|tries| - 1]
    ensures AllFailed((before + tries)[..|before + tries| - 1])
  {
    AnsweredConcat(before, tries, email, deliver);
    var trace := before + tries;
    assert SlotsOf(trace) == SlotsOf(before) + SlotsOf(tries);
    SchedulePrefix(start, n, round, |tries|, rounds);
    ScheduleLength(start, n, round);
    FailedBeforeLast(before, tries);
  }

  /**
   * The retry loop's variables after the failed rounds `0..round-1` of
   * processing the record `attempt0` from clock reading `now`: the record
   * carries the last round's attempt number, status and start time; the
   * clock is `now` plus the calls' latency plus the backoff, which is that
   * of the rounds waited after; the tries are the schedule of those rounds,
   * each made when due and all failed, and the last error is the last try's.
   */
  predicate FailedRounds(providers: seq<Provider>, maxRetries: nat, baseDelay: nat, p: Progress, round: nat,
                         attempt0: EmailAttempt, now: int, start: nat, email: Email, deliver: (Email, nat, nat) -> Reply)
  {
    round <= maxRetries + 1 &&
    (round == 0 ==> p.attempt == attempt0) &&
    (round > 0 ==>
      p.attempt == attempt0.(attempts := round, status := if round > 1 then Retrying else Pending,
                             lastAttempt := RoundStart(p.trace, |providers|, round - 1, now, baseDelay, email, deliver)) &&
      now <= p.attempt.lastAttempt <= p.clock) &&
    p.clock == now + Elapsed(p.trace, email, deliver) + p.backoff && Timed(p.trace, now, baseDelay, email, deliver) &&
    p.backoff == TotalBackoff(baseDelay, if round <= maxRetries then round else maxRetries) &&
    SlotsOf(p.trace) == Schedule(start, |providers|, round) &&
    AllAnswered(p.trace, email, deliver) && AllFailed(p.trace) && p.lastError == LastError(p.trace)
  }

  /**
   * A round begun at clock reading `p.clock` in which every try failed,
   * followed by its wait unless it was the last round, extends the failed
   * rounds by one.
   */
  lemma {:induction false} FailedRoundStep(providers: seq<Provider>, maxRetries: nat, baseDelay: nat, p: Progress, q: Progress,
                                           round: nat, attempt0: EmailAttempt, now: int, start: nat,
                                           email: Email, deliver: (Email, nat, nat) -> Reply, tries: seq<Try>, roundEnd: int,
                                           fields0: map<string, Snapshot>, fieldsAfter: map<string, Snapshot>)
    requires round <= maxRetries && FailedRounds(providers, maxRetries, baseDelay, p, round, attempt0, now, start, email, deliver)
    requires RoundJoined(providers, maxRetries, baseDelay, p.trace, tries, round, start, now, p.clock, roundEnd, None,
                         email, deliver, fields0, fieldsAfter)
    requires q.trace == p.trace + tries
    requires q.lastError == if tries == [] then p.lastError else Some(tries[|tries| - 1].outcome.message)
    requires q.attempt == p.attempt.(attempts := round + 1, lastAttempt := p.clock, status := if round > 0 then Retrying else Pending)
    requires q.clock == roundEnd + (if round < maxRetries then Backoff(baseDelay, round) else 0)
    requires q.backoff == p.backoff + (if round < maxRetries then Backoff(baseDelay, round) else 0)
    ensures FailedRounds(providers, maxRetries, baseDelay, q, round + 1, attempt0, now, start, email, deliver)
    ensures Replays(fields0, q.trace, providers, fieldsAfter)
  {
    ScheduleLength(start, |providers|, round);
    assert q.trace[..round * |providers|] == p.trace;
    assert RoundStart(q.trace, |providers|, round, now, baseDelay, email, deliver) == p.clock;
  }

  /**
   * A round begun at clock reading `p.clock` that ends in a delivery, after
   * failed rounds, ends processing with the record SENT through the
   * provider that answered.
   */
  lemma {:induction false} DeliveredStep(providers: seq<Provider>, maxRetries: nat, baseDelay: nat, p: Progress, q: Progress,
                                         round: nat, attempt0: EmailAttempt, now: int, start: nat,
                                         email: Email, deliver: (Email, nat, nat) -> Reply, tries: seq<Try>, index: nat,
                                         fields0: map<string, Snapshot>, fieldsAfter: map<string, Snapshot>)
    requires round <= maxRetries && FailedRounds(providers, maxRetries, baseDelay, p, round, attempt0, now, start, email, deliver)
    requires RoundJoined(providers, maxRetries, baseDelay, p.trace, tries, round, start, now, p.clock, q.clock, Some(index),
                         email, deliver, fields0, fieldsAfter)
    requires q.trace == p.trace + tries && q.backoff == p.backoff
    requires q.attempt == p.attempt.(attempts := round + 1, lastAttempt := p.clock, status := Sent,
                                     provider := Some(providers[index].name))
    ensures Handled(providers, maxRetries, baseDelay, start, index, now, attempt0, q.attempt, q.clock, q.backoff, q.trace, email, deliver)
    ensures q.attempt.status == Sent && Replays(fields0, q.trace, providers, fieldsAfter)
  {
    assert RoundStart(q.trace, |providers|, round, now, baseDelay, email, deliver) == p.clock by {
      ScheduleLength(start, |providers|, round);
      assert q.trace[..round * |providers|] == p.trace;
    }
    assert q.attempt == attempt0.(status := Sent, attempts := round + 1, lastAttempt := p.clock,
                                  provider := Some(providers[index].name)) by {
      if round > 0 {
        assert p.attempt == attempt0.(attempts := round, status := p.attempt.status, lastAttempt := p.attempt.lastAttempt);
      }
    }
    DeliveredOutcome(providers, baseDelay, attempt0, q.attempt, q.trace, round, q.backoff, index);
  }

  /**
   * Every round failed: the record becomes FAILED with the last error's
   * text, and processing ends where the last round left the clock.
   */
  lemma {:induction false} GaveUp(providers: seq<Provider>, maxRetries: nat, baseDelay: nat, p: Progress,
                                  attempt0: EmailAttempt, attempt: EmailAttempt, now: int, start: nat,
                                  email: Email, deliver: (Email, nat, nat) -> Reply)
    requires FailedRounds(providers, maxRetries, baseDelay, p, maxRetries + 1, attempt0, now, start, email, deliver)
    requires attempt == p.attempt.(status := Failed, error := Some(ErrorText(p.lastError)))
    ensures Handled(providers, maxRetries, baseDelay, start, start, now, attempt0, attempt, p.clock, p.backoff, p.trace, email, deliver)
  {
    assert attempt == attempt0.(status := Failed, attempts := maxRetries + 1, lastAttempt := attempt.lastAttempt,
                                error := Some(ErrorText(LastError(p.trace))));
    AllRoundsFailed(maxRetries, baseDelay, |providers|, attempt0, attempt, p.trace, start, p.backoff);
  }

  /**
   * The round `tries`, begun at clock reading `now` and ended at `clock`,
   * continues the failed rounds of `trace`, which began at `origin`: the
   * tries are made when due and answered by their breakers, and the
   * breakers went from `fields0` to `fieldsAfter` through all of them. A
   * round without a success completes one more round of the schedule and
   * its last error is the last overall; a success ends a trace that follows
   * the schedule and fails everywhere but at its last try.
   */
  predicate RoundJoined(providers: seq<Provider>, maxRetries: nat, baseDelay: nat, trace: seq<Try>, tries: seq<Try>,
                        round: nat, start: nat, origin: int, now: int, clock: int, sentVia: Option<nat>,
                        email: Email, deliver: (Email, nat, nat) -> Reply,
                        fields0: map<string, Snapshot>, fieldsAfter: map<string, Snapshot>)
  {
    var extended := trace + tries;
    clock >= now &&
    Timed(extended, origin, baseDelay, email, deliver) &&
    clock == origin + Elapsed(extended, email, deliver) + TotalBackoff(baseDelay, round) &&
    AllAnswered(extended, email, deliver) && Replays(fields0, extended, providers, fieldsAfter) &&
    (sentVia.None? ==>
      SlotsOf(extended) == Schedule(start, |providers|, round + 1) && AllFailed(extended) &&
      LastError(extended) == if tries == [] then LastError(trace) else Some(tries[|tries| - 1].outcome.message)) &&
    (sentVia.Some? ==>
      FollowsSchedule(extended, start, |providers|, maxRetries + 1) &&
      |extended| > 0 && extended[|extended| - 1].outcome.Returned? && AllFailed(extended[..|extended| - 1]) &&
      extended[|extended| - 1].round == round &&
      sentVia.value == extended[|extended| - 1].provider && sentVia.value < |providers|)
  }

  /** A round run after the failed rounds of `trace` continues the trace, its timing and the breakers' history. */
  lemma {:induction false} RoundJoins(providers: seq<Provider>, maxRetries: nat, baseDelay: nat, trace: seq<Try>, tries: seq<Try>,
                                      round: nat, start: nat, origin: int, now: int, clock: int, sentVia: Option<nat>,
                                      email: Email, deliver: (Email, nat, nat) -> Reply,
                                      fields0: map<string, Snapshot>, fields: map<string, Snapshot>, fieldsAfter: map<string, Snapshot>)
    requires round <= maxRetries
    requires SlotsOf(trace) == Schedule(start, |providers|, round) && AllFailed(trace)
    requires AllAnswered(trace, email, deliver) && Replays(fields0, trace, providers, fields)
    requires Timed(trace, origin, baseDelay, email, deliver)
    requires now == origin + Elapsed(trace, email, deliver) + TotalBackoff(baseDelay, round)
    requires RoundSoFar(providers, baseDelay, tries, round, start, now, clock, email, deliver, fields, fieldsAfter)
    requires AllFailed(tries) ==> |tries| == |providers|
    requires sentVia.None? <==> AllFailed(tries)
    requires sentVia.Some? ==>
      |tries| > 0 && tries[|tries| - 1].outcome.Returned? && AllFailed(tries[..|tries| - 1]) &&
      tries[|tries| - 1].round == round &&
      sentVia.value == tries[|tries| - 1].provider && sentVia.value < |providers|
    ensures RoundJoined(providers, maxRetries, baseDelay, trace, tries, round, start, origin, now, clock, sentVia,
                        email, deliver, fields0, fieldsAfter)
  {
    ReplaysConcat(fields0, trace, fields, tries, providers, fieldsAfter);
    TimedConcat(trace, tries, origin, baseDelay, email, deliver);
    if sentVia.Some? {
      SucceededRoundEnds(trace, tries, start, |providers|, round, maxRetries + 1, email, deliver);
    } else {
      FailedRoundAppends(trace, tries, start, |providers|, round, email, deliver);
    }
  }

  /**
   * A delivery ends processing: with the record updated to SENT through the
   * provider that answered and the backoff of the rounds before, the trace
   * that ends in that success is the delivered outcome.
   */
  lemma {:induction false} DeliveredOutcome(providers: seq<Provider>, baseDelay: nat, before: EmailAttempt, after: EmailAttempt,
                                            trace: seq<Try>, round: nat, backoff: nat, index: nat)
    requires |trace| > 0 && trace[|trace| - 1].outcome.Returned? && AllFailed(trace[..|trace| - 1])
    requires trace[|trace| - 1].round == round && index == trace[|trace| - 1].provider && index < |providers|
    requires after == before.(status := Sent, attempts := round + 1, lastAttempt := after.lastAttempt,
                              provider := Some(providers[index].name))
    requires backoff == TotalBackoff(baseDelay, round)
    ensures SentOutcome(providers, baseDelay, before, after, trace, backoff, index)
  {
  }

  /** Every round failed: the tries are the whole schedule and the record is the FAILED one. */
  lemma {:induction false} AllRoundsFailed(maxRetries: nat, baseDelay: nat, n: nat, before: EmailAttempt, after: EmailAttempt,
                                           trace: seq<Try>, start: nat, backoff: nat)
    requires SlotsOf(trace) == Schedule(start, n, maxRetries + 1) && AllFailed(trace)
    requires after == before.(status := Failed, attempts := maxRetries + 1, lastAttempt := after.lastAttempt,
                              error := Some(ErrorText(LastError(trace))))
    requires backoff == TotalBackoff(baseDelay, maxRetries)
    ensures FollowsSchedule(trace, start, n, maxRetries + 1)
    ensures FailedOutcome(maxRetries, baseDelay, n, before, after, trace, backoff)
  {
    ScheduleLength(start, n, maxRetries + 1);
  }

  /**
   * The worked example of giving up: with two retries and a 100 ms base
   * delay, processing waits 300 ms in all and ends FAILED after three
   * attempts.
   */
  lemma GiveUpExample(n: nat, before: EmailAttempt, after: EmailAttempt, trace: seq<Try>, backoff: nat)
    requires FailedOutcome(2, 100, n, before, after, trace, backoff)
    ensures backoff == 300 && after.attempts == 3 && after.status == Failed
  {
    TotalBackoffClosedForm(100, 2);
  }

  /**
   * Fallback delivers at once through a working sticky provider: if, when
   * processing started at clock reading `now`, that provider's breaker was
   * not OPEN or its cooldown had passed, and the provider accepts the
   * message in the first round, the message is SENT by it at the first try,
   * after one attempt and no backoff.
   */
  lemma {:induction false} WorkingStickySends(providers: seq<Provider>, maxRetries: nat, baseDelay: nat,
                                              fields: map<string, Snapshot>, before: EmailAttempt, after: EmailAttempt,
                                              trace: seq<Try>, finishedAt: int, backoff: nat, start: nat, index: nat, now: int,
                                              email: Email, deliver: (Email, nat, nat) -> Reply)
    requires start < |providers|
    requires Handled(providers, maxRetries, baseDelay, start, index, now, before, after, finishedAt, backoff, trace, email, deliver)
    requires Chained(fields, trace, providers)
    requires providers[start].name in fields
    requires var b := fields[providers[start].name]; b.state == Open ==> CooledDown(b.lastFailureTime, DefaultTimeout, now)
    requires deliver(email, 0, start).outcome.Returned?
    ensures after.status == Sent && index == start && |trace| == 1 && trace[0].invoked
    ensures after.attempts == 1 && after.provider == Some(providers[start].name) && backoff == 0
  {
    var n := |providers|;
    assert |trace| > 0 by {
      if after.status == Failed {
        assert (maxRetries + 1) * n == maxRetries * n + n;
      }
    }
    FirstAttemptIsSticky(start, n, maxRetries + 1);
    assert SlotsOf(trace)[0] == Schedule(start, n, maxRetries + 1)[..|trace|][0];
    ChainedFirst(fields, trace, providers);
    TimedFirst(trace, now, baseDelay, email, deliver);
    assert trace[0].invoked && trace[0].outcome.Returned?;
    assert !AllFailed(trace);
    if |trace| > 1 {
      assert false;
    }
  }

  /**
   * The sticky index: the next message's first attempt goes to the provider
   * that succeeded last (when the index is valid and there is a round).
   */
  lemma FirstAttemptIsSticky(start: nat, n: nat, rounds: nat)
    requires start < n && rounds >= 1
    ensures |Schedule(start, n, rounds)| > 0 && Schedule(start, n, rounds)[0] == Slot(0, start)
  {
    RotationVisitsEachOnce(start, n);
    ScheduleGrows(start, n, 1, rounds);
    assert Schedule(start, n, 1) == RoundSlots(0, start, n);
  }

  /**
   * The constructor's `forEach`: a new breaker with the default settings per
   * provider name; a repeated name keeps the breaker made last.
   */
  method NewBreakers(providers: seq<Provider>) returns (breakers: map<string, CircuitBreaker>)
    ensures breakers.Keys == set i | 0 <= i < |providers| :: providers[i].name
    ensures forall b :: b in breakers.Values ==>
      fresh(b) && b.Snap() == Initial &&
      b.failureThreshold == DefaultFailureThreshold && b.timeout == DefaultTimeout
    ensures forall x, y :: x in breakers && y in breakers && x != y ==> breakers[x] != breakers[y]
  {
    breakers := map[];
    var i := 0;
    while i < |providers|
      invariant i <= |providers|
      invariant breakers.Keys == set k | 0 <= k < i :: providers[k].name
      invariant forall b :: b in breakers.Values ==>
        fresh(b) && b.Snap() == Initial &&
        b.failureThreshold == DefaultFailureThreshold && b.timeout == DefaultTimeout
      invariant forall x, y :: x in breakers && y in breakers && x != y ==> breakers[x] != breakers[y]
    {
      var b := new CircuitBreaker(DefaultFailureThreshold, DefaultTimeout);
      ghost var was := breakers;
      breakers := breakers[providers[i].name := b];
      assert forall c :: c in breakers.Values ==> c == b || c in was.Values;
      i := i + 1;
    }
  }

  class EmailService {
    const providers: seq<Provider>
    const circuitBreakers: map<string, CircuitBreaker>
    const rateLimiter: RateLimiter
    const emailQueue: EmailQueue<Email>
    const maxRetries: nat
    const baseDelay: nat
    var emailAttempts: map<string, EmailAttempt>
    /** The sticky index: the provider that succeeded last, where every rotation starts. */
    var currentProviderIndex: nat

    /**
     * Every provider has a breaker with the default settings, and distinct
     * names have distinct breakers.
     */
    ghost predicate Wired() {
      (forall i :: 0 <= i < |providers| ==> providers[i].name in circuitBreakers) &&
      (forall b :: b in circuitBreakers.Values ==>
        b.failureThreshold == DefaultFailureThreshold && b.timeout == DefaultTimeout) &&
      (forall x, y :: x in circuitBreakers && y in circuitBreakers && x != y ==> circuitBreakers[x] != circuitBreakers[y])
    }

    /** The sticky index is a provider's (or 0 when there is none). */
    ghost predicate Sticky()
      reads this
    {
      if |providers| == 0 then currentProviderIndex == 0 else currentProviderIndex < |providers|
    }

    /** Every record is filed under its own message's id. */
    ghost predicate Filed()
      reads this
    {
      forall id :: id in emailAttempts ==> emailAttempts[id].id == id && emailAttempts[id].email.id == id
    }

    /** The breakers' fields, by provider name. */
    function BreakerFields(): map<string, Snapshot>
      reads circuitBreakers.Values
    {
      map name | name in circuitBreakers :: circuitBreakers[name].Snap()
    }

    /** The service's state at clock reading `clock`. */
    ghost function State(clock: int): ServiceState
      reads this, rateLimiter, circuitBreakers.Values
    {
      ServiceState(emailAttempts, currentProviderIndex, rateLimiter.requests, BreakerFields(), clock)
    }

    /** Every breaker keeps its state invariant. */
    ghost predicate BreakersValid()
      reads circuitBreakers.Values
    {
      AllConsistent(BreakerFields())
    }

    /** Between calls: wired, filed, and no drain in progress. */
    ghost predicate Valid()
      reads this, emailQueue
    {
      Wired() && Sticky() && Filed() && emailQueue.queue == [] && !emailQueue.processing
    }

    constructor (providers: seq<Provider>, maxRetries: nat := DefaultMaxRetries, baseDelay: nat := DefaultBaseDelay)
      ensures this.providers == providers && this.maxRetries == maxRetries && this.baseDelay == baseDelay
      ensures Valid() && BreakersValid()
      ensures emailAttempts == map[] && currentProviderIndex == 0
      ensures circuitBreakers.Keys == set i | 0 <= i < |providers| :: providers[i].name
      ensures forall x, y :: x in circuitBreakers && y in circuitBreakers && x != y ==> circuitBreakers[x] != circuitBreakers[y]
      ensures forall b :: b in circuitBreakers.Values ==>
        fresh(b) && b.Snap() == Initial &&
        b.failureThreshold == DefaultFailureThreshold && b.timeout == DefaultTimeout
      ensures fresh(rateLimiter) && rateLimiter.requests == [] &&
        rateLimiter.maxRequests == DefaultMaxRequests && rateLimiter.windowMs == DefaultWindowMs
      ensures fresh(emailQueue)
    {
      this.providers := providers;
      this.maxRetries := maxRetries;
      this.baseDelay := baseDelay;
      var breakers := NewBreakers(providers);
      circuitBreakers := breakers;
      rateLimiter := new RateLimiter(DefaultMaxRequests, DefaultWindowMs);
      emailQueue := new EmailQueue();
      emailAttempts := map[];
      currentProviderIndex := 0;
      new;
      assert forall name :: name in BreakerFields() ==> BreakerFields()[name] == Initial;
    }

    /**
     * `sendEmail`: a message whose record says SENT is not sent again;
     * otherwise a fresh PENDING record replaces any earlier one, the message
     * is enqueued once, and the queue's drain processes it to SENT or FAILED.
     * The record returned is the one created (or the SENT one found);
     * `finishedAt` is the clock reading when processing ended, from which
     * the next call goes on.
     */
    method SendEmail(email: Email, now: int, deliver: (Email, nat, nat) -> Reply)
      returns (attempt: EmailAttempt, handed: seq<Email>, finishedAt: int, ghost runs: seq<Run>)
      requires Valid()
      modifies this, rateLimiter, circuitBreakers.Values, emailQueue
      ensures Valid()
      ensures old(BreakersValid()) ==> BreakersValid()
      ensures finishedAt >= now
      ensures AlreadySent(old(emailAttempts), email.id) ==>
        attempt == old(emailAttempts)[email.id] && handed == [] && finishedAt == now &&
        emailAttempts == old(emailAttempts) && currentProviderIndex == old(currentProviderIndex) &&
        rateLimiter.requests == old(rateLimiter.requests) && BreakerFields() == old(BreakerFields())
      ensures !AlreadySent(old(emailAttempts), email.id) ==>
        attempt == EmailAttempt(email.id, email, Pending, 0, now, None, None) && handed == [email] &&
        email.id in emailAttempts && emailAttempts == old(emailAttempts)[email.id := emailAttempts[email.id]] &&
        emailAttempts[email.id].email == email && Settled(emailAttempts[email.id])
      ensures AlreadySent(old(emailAttempts), email.id) ==> runs == []
      ensures !AlreadySent(old(emailAttempts), email.id) ==>
        |runs| == 1 && runs[0].email == email &&
        Drained(providers, maxRetries, baseDelay, rateLimiter.maxRequests, rateLimiter.windowMs, runs,
                old(State(now)).(table := old(emailAttempts)[email.id := attempt]), State(finishedAt), deliver)
      ensures Sorted(old(rateLimiter.requests)) && (forall i :: 0 <= i < |old(rateLimiter.requests)| ==> old(rateLimiter.requests)[i] <= now) ==>
        Sorted(rateLimiter.requests) && forall i :: 0 <= i < |rateLimiter.requests| ==> rateLimiter.requests[i] <= finishedAt
    {
      if email.id in emailAttempts && emailAttempts[email.id].status == Sent {
        return emailAttempts[email.id], [], now, [];
      }
      attempt, handed, finishedAt, runs := Submit(email, now, deliver);
    }

    /**
     * The rest of `sendEmail` for a message not yet sent: file a fresh
     * PENDING record, enqueue the message and drain the queue.
     */
    method Submit(email: Email, now: int, deliver: (Email, nat, nat) -> Reply)
      returns (attempt: EmailAttempt, handed: seq<Email>, finishedAt: int, ghost runs: seq<Run>)
      requires Valid()
      modifies this, rateLimiter, circuitBreakers.Values, emailQueue
      ensures Valid()
      ensures old(BreakersValid()) ==> BreakersValid()
      ensures finishedAt >= now
      ensures attempt == EmailAttempt(email.id, email, Pending, 0, now, None, None) && handed == [email] &&
        email.id in emailAttempts && emailAttempts == old(emailAttempts)[email.id := emailAttempts[email.id]] &&
        emailAttempts[email.id].email == email && Settled(emailAttempts[email.id])
      ensures |runs| == 1 && runs[0].email == email &&
        Drained(providers, maxRetries, baseDelay, rateLimiter.maxRequests, rateLimiter.windowMs, runs,
                old(State(now)).(table := old(emailAttempts)[email.id := attempt]), State(finishedAt), deliver)
      ensures Sorted(old(rateLimiter.requests)) && (forall i :: 0 <= i < |old(rateLimiter.requests)| ==> old(rateLimiter.requests)[i] <= now) ==>
        Sorted(rateLimiter.requests) && forall i :: 0 <= i < |rateLimiter.requests| ==> rateLimiter.requests[i] <= finishedAt
    {
      attempt := EmailAttempt(email.id, email, Pending, 0, now, None, None);
      Store(email.id, attempt, None);
      emailQueue.Push(email);
      assert emailQueue.queue == [email];
      ghost var filed := State(now);
      assert filed.sticky == old(currentProviderIndex) && filed.requests == old(rateLimiter.requests);
      assert filed.breakers == old(BreakerFields());
      assert filed == old(State(now)).(table := old(emailAttempts)[email.id := attempt]);
      finishedAt, handed, runs := DrainQueue(now, deliver);
      ProcessedOne(old(emailAttempts), attempt, emailAttempts, email);
      if Sorted(filed.requests) && (forall i :: 0 <= i < |filed.requests| ==> filed.requests[i] <= now) {
        DrainKeepsAdmissionsOrdered(providers, maxRetries, baseDelay, rateLimiter.maxRequests, rateLimiter.windowMs,
                                    runs, filed, State(finishedAt), deliver);
      }
    }

    /**
     * `processQueue` with `processEmailFromQueue` as the processing function:
     * unless a drain already runs or the queue is empty, processes every
     * queued message in FIFO order, exactly once, to SENT or FAILED, and
     * leaves the queue empty and idle.  The source's catch around each call
     * never fires here: `processEmailFromQueue` does not raise.
     */
    method DrainQueue(now: int, deliver: (Email, nat, nat) -> Reply)
      returns (finishedAt: int, handed: seq<Email>, ghost runs: seq<Run>)
      requires Wired() && Sticky() && Filed()
      requires forall k :: 0 <= k < |emailQueue.queue| ==> emailQueue.queue[k].id in emailAttempts
      modifies this, rateLimiter, circuitBreakers.Values, emailQueue
      ensures Sticky() && Filed()
      ensures old(BreakersValid()) ==> BreakersValid()
      ensures finishedAt >= now
      ensures old(emailQueue.processing) || old(emailQueue.queue) == [] ==>
        handed == [] && emailQueue.queue == old(emailQueue.queue) &&
        emailQueue.processing == old(emailQueue.processing) && emailAttempts == old(emailAttempts)
      ensures !old(emailQueue.processing) && old(emailQueue.queue) != [] ==>
        handed == old(emailQueue.queue) && emailQueue.queue == [] && !emailQueue.processing
      ensures Processed(old(emailAttempts), emailAttempts, handed)
      ensures |runs| == |handed| && forall k :: 0 <= k < |runs| ==> runs[k].email == handed[k]
      ensures Drained(providers, maxRetries, baseDelay, rateLimiter.maxRequests, rateLimiter.windowMs,
                      runs, old(State(now)), State(finishedAt), deliver)
    {
      handed, runs, finishedAt := [], [], now;
      ghost var s0 := State(now);
      var started := emailQueue.TryStartDrain();
      if started {
        finishedAt, handed, runs := DrainAll(now, deliver, s0);
        emailQueue.FinishDrain();
      }
    }

    /** The drain loop itself, run while the queue is marked as processing. */
    method DrainAll(now: int, deliver: (Email, nat, nat) -> Reply, ghost s0: ServiceState)
      returns (finishedAt: int, handed: seq<Email>, ghost runs: seq<Run>)
      requires Wired() && Sticky() && Filed() && s0 == State(now)
      requires forall k :: 0 <= k < |emailQueue.queue| ==> emailQueue.queue[k].id in emailAttempts
      modifies this, rateLimiter, circuitBreakers.Values, emailQueue
      ensures Sticky() && Filed()
      ensures old(BreakersValid()) ==> BreakersValid()
      ensures finishedAt >= now
      ensures handed == old(emailQueue.queue) && emailQueue.queue == []
      ensures emailQueue.processing == old(emailQueue.processing)
      ensures Processed(old(emailAttempts), emailAttempts, handed)
      ensures |runs| == |handed| && forall k :: 0 <= k < |runs| ==> runs[k].email == handed[k]
      ensures Drained(providers, maxRetries, baseDelay, rateLimiter.maxRequests, rateLimiter.windowMs,
                      runs, s0, State(finishedAt), deliver)
    {
      handed, runs, finishedAt := [], [], now;
      ghost var s := s0;
      while |emailQueue.queue| > 0
        invariant Sticky() && Filed()
        invariant old(BreakersValid()) ==> BreakersValid()
        invariant emailQueue.processing == old(emailQueue.processing)
        invariant handed + emailQueue.queue == old(emailQueue.queue)
        invariant emailAttempts.Keys == old(emailAttempts).Keys
        invariant finishedAt >= now
        invariant |runs| == |handed| && forall k :: 0 <= k < |runs| ==> runs[k].email == handed[k]
        invariant s == State(finishedAt)
        invariant Drained(providers, maxRetries, baseDelay, rateLimiter.maxRequests, rateLimiter.windowMs, runs, s0, s, deliver)
        decreases |emailQueue.queue|
      {
        assert emailQueue.queue[0] == old(emailQueue.queue)[|handed|];
        var email, _, done, _, run := ProcessNext(finishedAt, deliver, runs, s0);
        MovedToHanded(handed, email, emailQueue.queue, old(emailQueue.queue));
        finishedAt := done;
        handed, runs, s := handed + [email], runs + [run], run.post;
      }
      DrainedProcessed(providers, maxRetries, baseDelay, rateLimiter.maxRequests, rateLimiter.windowMs, runs, s0, s, handed, deliver);
    }

    /**
     * One pass of the drain loop: shift the head of the queue and process
     * it.  `runs` (ghost) are the processings of the drain so far, from
     * `s0` to the current state; `run` is this message's processing, and
     * the drain extended by it ends in the state after it.  With no earlier
     * processings, `DrainedOne` turns that into `Ran` for `run` itself.
     */
    method ProcessNext(now: int, deliver: (Email, nat, nat) -> Reply, ghost runs: seq<Run>, ghost s0: ServiceState)
      returns (email: Email, admittedAt: int, finishedAt: int, backoff: nat, ghost run: Run)
      requires Wired() && Sticky() && Filed() && emailQueue.queue != [] && emailQueue.queue[0].id in emailAttempts
      requires Drained(providers, maxRetries, baseDelay, rateLimiter.maxRequests, rateLimiter.windowMs, runs, s0, State(now), deliver)
      modifies this, rateLimiter, circuitBreakers.Values, emailQueue
      ensures Sticky() && Filed()
      ensures old(BreakersValid()) ==> BreakersValid()
      ensures email == old(emailQueue.queue)[0] && [email] + emailQueue.queue == old(emailQueue.queue)
      ensures emailQueue.processing == old(emailQueue.processing)
      ensures email.id in emailAttempts && emailAttempts == old(emailAttempts)[email.id := emailAttempts[email.id]]
      ensures emailAttempts[email.id].email == old(emailAttempts[email.id]).email && Settled(emailAttempts[email.id])
      ensures finishedAt >= now
      ensures run.email == email && run.pre == old(State(now)) && run.post == State(finishedAt)
      ensures run.admittedAt == admittedAt && run.backoff == backoff
      ensures Drained(providers, maxRetries, baseDelay, rateLimiter.maxRequests, rateLimiter.windowMs, runs + [run], s0, run.post, deliver)
    {
      email := emailQueue.Shift();
      ghost var pre := ServiceState(emailAttempts, currentProviderIndex, rateLimiter.requests, BreakerFields(), now);
      var trace;
      admittedAt, finishedAt, backoff, trace := ProcessEmailFromQueue(email, now, deliver);
      run := Run(email, pre, ServiceState(emailAttempts, currentProviderIndex, rateLimiter.requests, BreakerFields(), finishedAt),
                 admittedAt, backoff, trace);
      DrainedStep(providers, maxRetries, baseDelay, rateLimiter.maxRequests, rateLimiter.windowMs, runs, s0, run, deliver);
    }

    /**
     * One pass of the inner loop: provider `index`'s call through its
     * breaker.  The breaker takes its step; the clock advances by the call's
     * latency only when the breaker let the call through.
     */
    method TryProvider(email: Email, round: nat, index: nat, now: int, deliver: (Email, nat, nat) -> Reply)
      returns (clock: int, t: Try)
      requires Wired() && index < |providers|
      modifies circuitBreakers.Values
      ensures t.round == round && t.provider == index && t.at == now && Answered(t, email, deliver)
      ensures t.breaker == old(BreakerFields())[providers[index].name]
      ensures BreakerFields() == old(BreakerFields())[providers[index].name := t.breakerAfter]
      ensures clock == if t.invoked then now + deliver(email, round, index).latency else now
    {
      var name := providers[index].name;
      var breaker := circuitBreakers[name];
      var reply := deliver(email, round, index);
      var fields := breaker.Snap();
      var result, invoked := breaker.Execute(now, reply.outcome, now + reply.latency);
      clock := if invoked then now + reply.latency else now;
      t := Try(round, index, now, fields, breaker.Snap(), invoked, result);
      assert forall x :: x in circuitBreakers && x != name ==> circuitBreakers[x] != breaker;
    }

    /**
     * One round of the inner loop of `processEmailFromQueue`: the providers
     * in rotation order from `start`, each through its breaker, stopping at
     * the first success.  `tries` lists the passes in order; provider calls
     * advance the clock by their latency.
     */
    method TryRound(email: Email, round: nat, start: nat, now: int, deliver: (Email, nat, nat) -> Reply)
      returns (clock: int, tries: seq<Try>, sentVia: Option<nat>)
      requires Wired() && (|providers| == 0 || start < |providers|)
      modifies circuitBreakers.Values
      ensures RoundSoFar(providers, baseDelay, tries, round, start, now, clock, email, deliver, old(BreakerFields()), BreakerFields())
      ensures AllFailed(tries) ==> |tries| == |providers|
      ensures sentVia.None? <==> AllFailed(tries)
      ensures sentVia.Some? ==>
        |tries| > 0 && tries[|tries| - 1].outcome.Returned? && AllFailed(tries[..|tries| - 1]) &&
        tries[|tries| - 1].round == round &&
        sentVia.value == tries[|tries| - 1].provider && sentVia.value < |providers|
    {
      var n := |providers|;
      ghost var fields0 := BreakerFields();
      clock, tries, sentVia := now, [], None;
      var i := 0;
      while i < n
        invariant i <= n && |tries| == i && AllFailed(tries)
        invariant RoundSoFar(providers, baseDelay, tries, round, start, now, clock, email, deliver, fields0, BreakerFields())
      {
        var index := (start + i) % n;
        ghost var fields := BreakerFields();
        var after, t := TryProvider(email, round, index, clock, deliver);
        RoundExtends(providers, baseDelay, tries, t, round, start, now, clock, after, email, deliver, fields0, fields, BreakerFields());
        clock := after;
        if t.outcome.Returned? {
          return clock, tries + [t], Some(index);
        }
        tries := tries + [t];
        i := i + 1;
      }
    }

    /**
     * One round of the retry loop after the failed rounds of `trace`: the
     * rotation through the breakers, its tries appended to the trace.
     */
    method RunRound(email: Email, round: nat, start: nat, now: int, trace: seq<Try>, ghost fields0: map<string, Snapshot>,
                    ghost origin: int, deliver: (Email, nat, nat) -> Reply)
      returns (clock: int, extended: seq<Try>, tries: seq<Try>, sentVia: Option<nat>)
      requires Wired() && (|providers| == 0 || start < |providers|) && round <= maxRetries
      requires SlotsOf(trace) == Schedule(start, |providers|, round) && AllFailed(trace)
      requires AllAnswered(trace, email, deliver) && Replays(fields0, trace, providers, BreakerFields())
      requires Timed(trace, origin, baseDelay, email, deliver)
      requires now == origin + Elapsed(trace, email, deliver) + TotalBackoff(baseDelay, round)
      modifies circuitBreakers.Values
      ensures extended == trace + tries
      ensures RoundJoined(providers, maxRetries, baseDelay, trace, tries, round, start, origin, now, clock, sentVia,
                          email, deliver, fields0, BreakerFields())
    {
      ghost var fields := BreakerFields();
      clock, tries, sentVia := TryRound(email, round, start, now, deliver);
      RoundJoins(providers, maxRetries, baseDelay, trace, tries, round, start, origin, now, clock, sentVia,
                 email, deliver, fields0, fields, BreakerFields());
      extended := trace + tries;
    }

    /**
     * The retry loop's variables after the failed rounds `0..round-1`, with
     * the breakers gone through those rounds' tries from `fields0`.
     */
    ghost predicate RoundsFailed(p: Progress, round: nat, attempt0: EmailAttempt, now: int, start: nat, email: Email,
                                 deliver: (Email, nat, nat) -> Reply, fields0: map<string, Snapshot>)
      reads circuitBreakers.Values
    {
      FailedRounds(providers, maxRetries, baseDelay, p, round, attempt0, now, start, email, deliver) &&
      Replays(fields0, p.trace, providers, BreakerFields())
    }

    /**
     * One pass of the retry loop: the record is marked with the round's
     * attempt number, start time and status, the providers are tried in
     * rotation, and a fully failed round other than the last is followed by
     * its `baseDelay * 2^round` wait.
     */
    method RetryRound(email: Email, attempt0: EmailAttempt, round: nat, start: nat, now: int, p: Progress,
                      ghost fields0: map<string, Snapshot>, deliver: (Email, nat, nat) -> Reply)
      returns (q: Progress, sentVia: Option<nat>)
      requires Wired() && (|providers| == 0 || start < |providers|) && round <= maxRetries
      requires RoundsFailed(p, round, attempt0, now, start, email, deliver, fields0)
      modifies circuitBreakers.Values
      ensures sentVia.None? ==> RoundsFailed(q, round + 1, attempt0, now, start, email, deliver, fields0)
      ensures sentVia.Some? ==>
        Handled(providers, maxRetries, baseDelay, start, sentVia.value, now, attempt0, q.attempt, q.clock, q.backoff, q.trace,
                email, deliver) &&
        q.attempt.status == Sent && Replays(fields0, q.trace, providers, BreakerFields())
    {
      var attempt := p.attempt.(attempts := round + 1, lastAttempt := p.clock, status := if round > 0 then Retrying else Pending);
      var clock, trace, tries, via := RunRound(email, round, start, p.clock, p.trace, fields0, now, deliver);
      ghost var fields := BreakerFields();
      sentVia := via;
      if via.Some? {
        attempt := attempt.(status := Sent, provider := Some(providers[via.value].name));
        q := Progress(attempt, p.lastError, clock, p.backoff, trace);
        DeliveredStep(providers, maxRetries, baseDelay, p, q, round, attempt0, now, start, email, deliver, tries, via.value, fields0, fields);
        return;
      }
      var lastError := p.lastError;
      if tries != [] {
        lastError := Some(tries[|tries| - 1].outcome.message);
      }
      ghost var roundEnd := clock;
      var backoff := p.backoff;
      if round < maxRetries {
        var delay := Backoff(baseDelay, round);
        clock := clock + delay;
        backoff := backoff + delay;
      }
      q := Progress(attempt, lastError, clock, backoff, trace);
      FailedRoundStep(providers, maxRetries, baseDelay, p, q, round, attempt0, now, start, email, deliver, tries, roundEnd, fields0, fields);
    }

    /**
     * The retry loop of `processEmailFromQueue` on the message's record
     * `attempt0`, from clock reading `now`: rounds `0..maxRetries`, each a
     * rotation from the sticky index through the providers' breakers; the
     * first success ends processing; a failed round other than the last is
     * followed by a `baseDelay * 2^round` wait.  Returns the final record,
     * the index of the provider that succeeded (if any), the clock when
     * processing ended, the total backoff waited and the tries in order.
     */
    method RetryRounds(email: Email, attempt0: EmailAttempt, now: int, deliver: (Email, nat, nat) -> Reply)
      returns (attempt: EmailAttempt, sentVia: Option<nat>, finishedAt: int, backoff: nat, trace: seq<Try>)
      requires Wired() && Sticky()
      modifies circuitBreakers.Values
      ensures Handled(providers, maxRetries, baseDelay, old(currentProviderIndex),
                      if sentVia.Some? then sentVia.value else old(currentProviderIndex),
                      now, attempt0, attempt, finishedAt, backoff, trace, email, deliver)
      ensures sentVia.Some? <==> attempt.status == Sent
      ensures Replays(old(BreakerFields()), trace, providers, BreakerFields())
    {
      var start := currentProviderIndex;
      ghost var fields0 := BreakerFields();
      var p := Progress(attempt0, None, now, 0, []);
      var round: nat := 0;
      while round <= maxRetries
        invariant RoundsFailed(p, round, attempt0, now, start, email, deliver, fields0)
      {
        var q, via := RetryRound(email, attempt0, round, start, now, p, fields0, deliver);
        if via.Some? {
          return q.attempt, via, q.clock, q.backoff, q.trace;
        }
        p, round := q, round + 1;
      }
      attempt := p.attempt.(status := Failed, error := Some(ErrorText(p.lastError)));
      sentVia, finishedAt, backoff, trace := None, p.clock, p.backoff, p.trace;
      GaveUp(providers, maxRetries, baseDelay, p, attempt0, attempt, now, start, email, deliver);
    }

    /**
     * `processEmailFromQueue`: take a rate-limiter slot, run the retry loop
     * on the message's record and store the result; on success the sticky
     * index moves to the provider that delivered.  Only this message's
     * record changes.
     */
    method ProcessEmailFromQueue(email: Email, now: int, deliver: (Email, nat, nat) -> Reply)
      returns (admittedAt: int, finishedAt: int, backoff: nat, trace: seq<Try>)
      requires Wired() && Sticky() && Filed() && email.id in emailAttempts
      modifies this, rateLimiter, circuitBreakers.Values
      ensures Sticky() && Filed()
      ensures old(BreakersValid()) ==> BreakersValid()
      ensures AdmittedAtFirstRoom(old(rateLimiter.requests), now, admittedAt, rateLimiter.maxRequests, rateLimiter.windowMs)
      ensures finishedAt >= admittedAt + backoff
      ensures finishedAt == admittedAt + Elapsed(trace, email, deliver) + backoff && Timed(trace, admittedAt, baseDelay, email, deliver)
      ensures rateLimiter.requests == Prune(old(rateLimiter.requests), admittedAt, rateLimiter.windowMs) + [admittedAt]
      ensures email.id in emailAttempts && emailAttempts == old(emailAttempts)[email.id := emailAttempts[email.id]]
      ensures Handled(providers, maxRetries, baseDelay, old(currentProviderIndex), currentProviderIndex, admittedAt,
                      old(emailAttempts[email.id]), emailAttempts[email.id], finishedAt, backoff, trace, email, deliver)
      ensures Replays(old(BreakerFields()), trace, providers, BreakerFields())
    {
      admittedAt := AcquireSlot(now);
      var attempt, sentVia;
      attempt, sentVia, finishedAt, backoff, trace := RetryRounds(email, emailAttempts[email.id], admittedAt, deliver);
      if old(BreakersValid()) {
        ReplayKeepsConsistent(old(BreakerFields()), trace, providers, email, deliver);
      }
      Store(email.id, attempt, sentVia);
    }

    /** The start of `processEmailFromQueue`: wait for a rate-limiter slot; nothing else changes. */
    method AcquireSlot(now: int) returns (admittedAt: int)
      modifies rateLimiter
      ensures AdmittedAtFirstRoom(old(rateLimiter.requests), now, admittedAt, rateLimiter.maxRequests, rateLimiter.windowMs)
      ensures rateLimiter.requests == Prune(old(rateLimiter.requests), admittedAt, rateLimiter.windowMs) + [admittedAt]
      ensures emailAttempts == old(emailAttempts) && currentProviderIndex == old(currentProviderIndex)
      ensures BreakerFields() == old(BreakerFields()) && BreakersValid() == old(BreakersValid())
    {
      admittedAt := rateLimiter.Acquire(now);
    }

    /**
     * The end of `processEmailFromQueue`: the message's record is stored,
     * and on success the sticky index moves to the provider that delivered.
     */
    method Store(id: string, attempt: EmailAttempt, sentVia: Option<nat>)
      requires Filed() && attempt.id == id && attempt.email.id == id
      requires Sticky() && (sentVia.Some? ==> sentVia.value < |providers|)
      modifies this
      ensures Filed() && Sticky()
      ensures emailAttempts == old(emailAttempts)[id := attempt]
      ensures currentProviderIndex == if sentVia.Some? then sentVia.value else old(currentProviderIndex)
      ensures BreakerFields() == old(BreakerFields()) && BreakersValid() == old(BreakersValid())
    {
      emailAttempts := emailAttempts[id := attempt];
      if sentVia.Some? {
        currentProviderIndex := sentVia.value;
      }
    }

    /** `getEmailStatus`: the record of a known id, nothing for an unknown one. */
    function GetEmailStatus(emailId: string): (r: Option<EmailAttempt>)
      reads this
      ensures r.Some? <==> emailId in emailAttempts
      ensures r.Some? ==> r.value == emailAttempts[emailId]
    {
      if emailId in emailAttempts then Some(emailAttempts[emailId]) else None
    }

    /** `getProviderStats`: one entry per provider, in provider order. */
    function GetProviderStats(): (stats: seq<ProviderStats>)
      reads this, circuitBreakers.Values
      ensures |stats| == |providers|
      ensures forall i :: 0 <= i < |providers| ==>
        stats[i].name == providers[i].name && stats[i].healthy == providers[i].healthy &&
        (providers[i].name in circuitBreakers ==> stats[i].circuitState == Some(circuitBreakers[providers[i].name].state))
    {
      seq(|providers|, i requires 0 <= i < |providers| reads this, circuitBreakers.Values =>
        var p := providers[i];
        ProviderStats(p.name, p.healthy, if p.name in circuitBreakers then Some(circuitBreakers[p.name].GetState()) else None))
    }

    /** `getRateLimitStats`: the pruned admission count and the number of queued messages. */
    method GetRateLimitStats(now: int) returns (requestCount: nat, queueSize: nat)
      modifies rateLimiter
      ensures rateLimiter.requests == Prune(old(rateLimiter.requests), now, rateLimiter.windowMs)
      ensures requestCount == |rateLimiter.requests| && queueSize == |emailQueue.queue|
    {
      requestCount := rateLimiter.GetRequestCount(now);
      queueSize := emailQueue.GetQueueSize();
    }
  }
}
