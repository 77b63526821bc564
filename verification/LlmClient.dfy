// The provider call loop: bounded retries with exponential backoff under a time budget that
// counts only provider calls and sleeps, and one spend event for every call made.
module LlmClient {
  import opened Models
  import opened Powers

  /** The retry settings, within the bounds the configuration validates. */
  datatype RetryConfig = RetryConfig(maxAttempts: nat, backoff: real, maxElapsed: real) {
    predicate Valid() {
      maxAttempts >= 1 && backoff >= 0.0 && maxElapsed >= 0.0
    }
  }

  /** An SDK exception: its HTTP status if it has one, and whether its class name marks it as transient. */
  datatype ProviderError = ProviderError(status: Option<int>, transientName: bool)

  /** What the SDK returns; `usable` tells whether the client can turn it into a response. */
  datatype Reply = Reply(text: string, usable: bool)

  datatype CallOutcome = Answered(reply: Reply) | Refused(error: ProviderError)

  /**
   * Everything the world decides about one attempt.  `admission`, `telemetry` and `accounting` are the
   * times spent reserving the attempt, recording metrics after it, and storing the spend event.
   */
  datatype Attempt = Attempt(
    admitted: bool, admission: real, call: real, outcome: CallOutcome,
    telemetry: real, accounting: real, stored: bool)
  {
    predicate Valid() {
      admission >= 0.0 && call >= 0.0 && telemetry >= 0.0 && accounting >= 0.0
    }
  }

  /** The world's answers to as many attempts as the settings allow. */
  predicate ValidWorld(cfg: RetryConfig, world: seq<Attempt>) {
    |world| >= cfg.maxAttempts && forall i :: 0 <= i < |world| ==> world[i].Valid()
  }

  datatype CallResult =
    | Ok(reply: Reply)
    | ProviderFailed(error: ProviderError)
    | NotAdmitted
    | AccountingDown

  /** `_is_retryable_error`. */
  function IsRetryable(e: ProviderError): bool {
    if e.status.Some? && 400 <= e.status.value < 500 && e.status.value != 429 then false
    else if e.status.Some? && (e.status.value == 429 || e.status.value >= 500) then true
    else e.transientName
  }

  /** The wait before the retry that follows attempt number `attempt`, counting from 0. */
  function Delay(cfg: RetryConfig, attempt: nat): real {
    cfg.backoff * Pow2(attempt) as real
  }

  /** How a call went: calls made, retries slept for, time in the provider, time asleep, budget used when each call began. */
  datatype Tally = Tally(calls: nat, retries: nat, provider: real, slept: real, starts: seq<real>)

  const Nothing: Tally := Tally(0, 0, 0.0, 0.0, [])

  /**
   * The call loop without any clock: only provider times and delays enter its decisions.
   * `done` is the tally of the attempts before number `attempt`.
   */
  function Retry(cfg: RetryConfig, world: seq<Attempt>, attempt: nat, done: Tally): (CallResult, Tally)
    requires attempt < cfg.maxAttempts <= |world|
    decreases cfg.maxAttempts - attempt
  {
    var a := world[attempt];
    if !a.admitted then (NotAdmitted, done)
    else
      var called := Called(done, a);
      match a.outcome
      case Answered(reply) => (Ok(reply), called)
      case Refused(error) =>
        if !IsRetryable(error) || attempt + 1 >= cfg.maxAttempts ||
           cfg.maxElapsed <= called.provider + called.slept + Delay(cfg, attempt)
        then (ProviderFailed(error), called)
        else if !a.stored then (AccountingDown, called)
        else Retry(cfg, world, attempt + 1, Slept(cfg, called, attempt))
  }

  function Called(done: Tally, a: Attempt): Tally {
    done.(calls := done.calls + 1, provider := done.provider + a.call, starts := done.starts + [done.provider + done.slept])
  }

  function Slept(cfg: RetryConfig, called: Tally, attempt: nat): Tally {
    called.(retries := called.retries + 1, slept := called.slept + Delay(cfg, attempt))
  }

  function Outcome(cfg: RetryConfig, world: seq<Attempt>): (CallResult, Tally)
    requires cfg.Valid() && ValidWorld(cfg, world)
  {
    Retry(cfg, world, 0, Nothing)
  }

  // -- What the loop promises ------------------------------------------------

  /** Two worlds that differ only in bookkeeping times. */
  predicate SameCalls(a: Attempt, b: Attempt) {
    a.admitted == b.admitted && a.call == b.call && a.outcome == b.outcome && a.stored == b.stored
  }

  /** Slow admission, metrics or accounting never costs a retry: the outcome does not depend on them. */
  lemma {:induction false} BookkeepingTimeIsFree(cfg: RetryConfig, world: seq<Attempt>, world': seq<Attempt>,
      attempt: nat, done: Tally)
    requires attempt < cfg.maxAttempts <= |world| && |world| == |world'|
    requires forall i :: 0 <= i < |world| ==> SameCalls(world[i], world'[i])
    ensures Retry(cfg, world, attempt, done) == Retry(cfg, world', attempt, done)
    decreases cfg.maxAttempts - attempt
  {
    var a, b := world[attempt], world'[attempt];
    assert SameCalls(a, b);
    if a.admitted && a.outcome.Refused? && attempt + 1 < cfg.maxAttempts {
      BookkeepingTimeIsFree(cfg, world, world', attempt + 1, Slept(cfg, Called(done, a), attempt));
    }
  }

  /** The tally of the attempts before number `attempt`, all of them refused and retried. */
  ghost predicate TallyOk(cfg: RetryConfig, t: Tally, attempt: nat) {
    && t.calls == t.retries == attempt == |t.starts|
    && t.provider >= 0.0
    && t.slept == TotalSleep(cfg, attempt)
    && (attempt > 0 ==> t.provider + t.slept < cfg.maxElapsed)
    && (forall k :: 1 <= k < |t.starts| ==> t.starts[k] < cfg.maxElapsed)
  }

  /** `backoff * (2^k - 1)`: the sleep of the first `k` retries together. */
  function TotalSleep(cfg: RetryConfig, k: nat): real {
    cfg.backoff * (Pow2(k) - 1) as real
  }

  lemma SleepStep(cfg: RetryConfig, attempt: nat)
    ensures TotalSleep(cfg, attempt) + Delay(cfg, attempt) == TotalSleep(cfg, attempt + 1)
  {
  }

  lemma DelayNotNegative(cfg: RetryConfig, attempt: nat)
    requires cfg.Valid()
    ensures Delay(cfg, attempt) >= 0.0
  {
  }

  lemma {:induction false} RetryBounds(cfg: RetryConfig, world: seq<Attempt>, attempt: nat, done: Tally)
    requires cfg.Valid() && ValidWorld(cfg, world) && attempt < cfg.maxAttempts && TallyOk(cfg, done, attempt)
    ensures var (result, t) := Retry(cfg, world, attempt, done);
      && t.retries < cfg.maxAttempts
      && t.slept == TotalSleep(cfg, t.retries)
      && |t.starts| == t.calls
      && (forall k :: 1 <= k < |t.starts| ==> t.starts[k] < cfg.maxElapsed)
      && t.calls == (if result.NotAdmitted? then t.retries else t.retries + 1)
    decreases cfg.maxAttempts - attempt
  {
    hide TotalSleep, Delay, Pow2;
    var a := world[attempt];
    assert a.Valid();
    DelayNotNegative(cfg, attempt);
    if a.admitted && a.outcome.Refused? {
      var called := Called(done, a);
      if IsRetryable(a.outcome.error) && attempt + 1 < cfg.maxAttempts &&
         called.provider + called.slept + Delay(cfg, attempt) < cfg.maxElapsed && a.stored {
        SleepStep(cfg, attempt);
        RetryBounds(cfg, world, attempt + 1, Slept(cfg, called, attempt));
      }
    }
  }

  /**
   * Every retry starts with provider time plus sleep below the time budget; after k retries the loop has
   * slept backoff * (2^k - 1), and k stays below the number of attempts.
   */
  lemma RetryBudget(cfg: RetryConfig, world: seq<Attempt>)
    requires cfg.Valid() && ValidWorld(cfg, world)
    ensures var t := Outcome(cfg, world).1;
      && t.retries < cfg.maxAttempts
      && t.slept == cfg.backoff * (Pow2(t.retries) - 1) as real
      && |t.starts| == t.calls
      && forall k :: 1 <= k < |t.starts| ==> t.starts[k] < cfg.maxElapsed
  {
    RetryBounds(cfg, world, 0, Nothing);
  }

  // -- The retry law ---------------------------------------------------------

  /** Worth another try: too many requests, a server error, or a transient failure that is no client error. */
  predicate Transient(e: ProviderError) {
    match e.status
    case None => e.transientName
    case Some(status) => status == 429 || status >= 500 || (e.transientName && status < 400)
  }

  /** Time in the provider over the first `n` attempts. */
  function ProviderTime(world: seq<Attempt>, n: nat): real
    requires n <= |world|
  {
    if n == 0 then 0.0 else ProviderTime(world, n - 1) + world[n - 1].call
  }

  /** Attempt `k` failed for a transient reason, and there is an attempt and time left for another one after its wait. */
  predicate MayRetry(cfg: RetryConfig, world: seq<Attempt>, k: nat)
    requires k < |world|
  {
    && world[k].outcome.Refused? && Transient(world[k].outcome.error)
    && k + 1 < cfg.maxAttempts
    && ProviderTime(world, k + 1) + cfg.backoff * (Pow2(k) - 1) as real + cfg.backoff * Pow2(k) as real < cfg.maxElapsed
  }

  /** How the call ends at attempt `k`, which is not followed by another one. */
  predicate EndsAt(cfg: RetryConfig, world: seq<Attempt>, k: nat, result: CallResult)
    requires k < |world|
  {
    if !world[k].admitted then result == NotAdmitted
    else
      match world[k].outcome
      case Answered(reply) => result == Ok(reply)
      case Refused(error) =>
        if MayRetry(cfg, world, k) then !world[k].stored && result == AccountingDown else result == ProviderFailed(error)
  }

  /** Every attempt from `first` to the one before `last` was made, refused, recorded and followed by another. */
  ghost predicate AllRetried(cfg: RetryConfig, world: seq<Attempt>, first: nat, last: nat)
    requires last <= |world|
  {
    forall k :: first <= k < last ==> world[k].admitted && MayRetry(cfg, world, k) && world[k].stored
  }

  lemma {:induction false} RetriesFollowTheLaw(cfg: RetryConfig, world: seq<Attempt>, attempt: nat, done: Tally)
    requires cfg.Valid() && ValidWorld(cfg, world) && attempt < cfg.maxAttempts
    requires done.calls == done.retries == attempt
    requires done.provider == ProviderTime(world, attempt) && done.slept == TotalSleep(cfg, attempt)
    ensures var (result, t) := Retry(cfg, world, attempt, done);
      && attempt <= t.retries < cfg.maxAttempts
      && t.calls == t.retries + (if world[t.retries].admitted then 1 else 0)
      && t.provider == ProviderTime(world, t.calls)
      && AllRetried(cfg, world, attempt, t.retries) && EndsAt(cfg, world, t.retries, result)
    decreases cfg.maxAttempts - attempt
  {
    hide Pow2;
    var a := world[attempt];
    if a.admitted && a.outcome.Refused? {
      var called := Called(done, a);
      assert IsRetryable(a.outcome.error) <==> Transient(a.outcome.error);
      assert called.provider == ProviderTime(world, attempt + 1);
      if MayRetry(cfg, world, attempt) && a.stored {
        SleepStep(cfg, attempt);
        RetriesFollowTheLaw(cfg, world, attempt + 1, Slept(cfg, called, attempt));
      }
    }
  }

  /**
   * Exactly: a refused attempt is followed by another one if and only if it failed for a transient reason, an
   * attempt is left, provider time and sleep leave room for the wait, and the sink has stored its event; and the
   * attempt that none follows decides the result.
   */
  lemma RetryLaw(cfg: RetryConfig, world: seq<Attempt>)
    requires cfg.Valid() && ValidWorld(cfg, world)
    ensures var (result, t) := Outcome(cfg, world);
      && t.retries < cfg.maxAttempts
      && (forall k :: 0 <= k < t.retries ==> world[k].admitted && MayRetry(cfg, world, k) && world[k].stored)
      && EndsAt(cfg, world, t.retries, result)
      && t.calls == t.retries + (if world[t.retries].admitted then 1 else 0)
      && t.provider == ProviderTime(world, t.calls)
  {
    RetriesFollowTheLaw(cfg, world, 0, Nothing);
  }

  // -- Spend events ----------------------------------------------------------

  /** One call of `on_response`. */
  datatype SpendEvent = SpendEvent(reply: Option<Reply>, cached: bool)

  const Unknown: SpendEvent := SpendEvent(None, false)

  datatype GenerateResult = Response(reply: Reply) | Failed

  function Repeat(n: nat): (events: seq<SpendEvent>)
    ensures |events| == n
    ensures forall k :: 0 <= k < n ==> events[k] == Unknown
  {
    if n == 0 then [] else Repeat(n - 1) + [Unknown]
  }

  /** The events of one `generate` call that missed the cache, with a sink that works. */
  function Events(result: CallResult, t: Tally): seq<SpendEvent> {
    Repeat(t.retries) + (match result
                         case Ok(reply) => [if reply.usable then SpendEvent(Some(reply), false) else Unknown]
                         case ProviderFailed(_) => [Unknown]
                         case NotAdmitted => []
                         case AccountingDown => [])
  }

  /**
   * As many events as provider calls, also when an attempt is refused admission; at most the last one carries
   * a response, and it does exactly when there is a usable one to return.
   */
  lemma EventsMatchCalls(cfg: RetryConfig, world: seq<Attempt>)
    requires cfg.Valid() && ValidWorld(cfg, world)
    requires !Outcome(cfg, world).0.AccountingDown?
    ensures var (result, t) := Outcome(cfg, world);
      var events := Events(result, t);
      && |events| == t.calls
      && (forall k :: 0 <= k < |events| - 1 ==> events[k] == SpendEvent(None, false))
      && (events != [] ==>
            events[|events| - 1] == SpendEvent(if result.Ok? && result.reply.usable then Some(result.reply) else None, false))
  {
    RetryBounds(cfg, world, 0, Nothing);
  }

  // -- The methods -----------------------------------------------------------

  /** `time.monotonic`, moved on only by what the world takes time for. */
  class Clock {
    var now: real

    method Pass(seconds: real)
      requires seconds >= 0.0
      modifies this
      ensures now == old(now) + seconds
    {
      now := now + seconds;
    }
  }

  class Client {
    const cfg: RetryConfig
    const clock: Clock
    var events: seq<SpendEvent>

    constructor (cfg: RetryConfig, clock: Clock)
      ensures this.cfg == cfg && this.clock == clock && events == []
    {
      this.cfg, this.clock, events := cfg, clock, [];
    }

    /** `_call_with_retry`, with the clock readings the source takes. */
    method CallWithRetry(world: seq<Attempt>) returns (result: CallResult, ghost tally: Tally)
      requires cfg.Valid() && ValidWorld(cfg, world)
      modifies clock, this`events
      ensures (result, tally) == Outcome(cfg, world)
      ensures events == old(events) + Repeat(tally.retries)
    {
      hide Pow2, Delay;
      var started := clock.now;
      var attemptFinished := started;
      var telemetry := 0.0;
      tally := Nothing;
      for attempt := 0 to cfg.maxAttempts
        invariant attempt < cfg.maxAttempts ==> Outcome(cfg, world) == Retry(cfg, world, attempt, tally)
        invariant attempt < cfg.maxAttempts
        invariant clock.now - started - telemetry == tally.provider + tally.slept
        invariant events == old(events) + Repeat(tally.retries)
      {
        var a := world[attempt];
        assert a.Valid();
        var admissionStarted := clock.now;
        clock.Pass(a.admission);
        if !a.admitted {
          return NotAdmitted, tally;
        }
        telemetry := telemetry + Max(0.0, clock.now - admissionStarted);
        clock.Pass(a.call);
        attemptFinished := clock.now;
        tally := Called(tally, a);
        clock.Pass(a.telemetry);
        if a.outcome.Answered? {
          return Ok(a.outcome.reply), tally;
        }
        var error := a.outcome.error;
        var now := clock.now;
        telemetry := telemetry + Max(0.0, now - attemptFinished);
        if !IsRetryable(error) || attempt + 1 >= cfg.maxAttempts {
          return ProviderFailed(error), tally;
        }
        var delay := Delay(cfg, attempt);
        DelayNotNegative(cfg, attempt);
        var elapsed := now - started - telemetry;
        if cfg.maxElapsed <= elapsed + delay {
          return ProviderFailed(error), tally;
        }
        var accountingStarted := clock.now;
        clock.Pass(a.accounting);
        if !a.stored {
          return AccountingDown, tally;
        }
        events := events + [Unknown];
        telemetry := telemetry + Max(0.0, clock.now - accountingStarted);
        clock.Pass(delay);
        tally := Slept(cfg, tally, attempt);
      }
      assert false;
    }

    /** `generate`: from the cache, or through the call loop with a final event; `cacheWorks` is whether storing it succeeds. */
    method Generate(cached: Option<Reply>, world: seq<Attempt>, cacheWorks: bool) returns (result: GenerateResult)
      requires cfg.Valid() && ValidWorld(cfg, world)
      modifies clock, this`events
      ensures cached.Some? ==>
        result == Response(cached.value) && events == old(events) + [SpendEvent(cached, true)]
      ensures cached.None? ==>
        var (outcome, tally) := Outcome(cfg, world);
        && events == old(events) + Events(outcome, tally)
        && (result.Response? <==> outcome.Ok? && outcome.reply.usable && cacheWorks)
        && (result.Response? ==> events != [] && events[|events| - 1] == SpendEvent(Some(result.reply), false))
    {
      if cached.Some? {
        events := events + [SpendEvent(cached, true)];
        return Response(cached.value);
      }
      var outcome, _ := CallWithRetry(world);
      match outcome {
        case Ok(reply) =>
          if !reply.usable {
            events := events + [Unknown];
            return Failed;
          }
          events := events + [SpendEvent(Some(reply), false)];
          return if cacheWorks then Response(reply) else Failed;
        case ProviderFailed(_) =>
          events := events + [Unknown];
          return Failed;
        case NotAdmitted =>
          return Failed;
        case AccountingDown =>
          return Failed;
      }
    }
  }

  function Max(a: real, b: real): real {
    if a < b then b else a
  }
}
