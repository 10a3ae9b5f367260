/** The per-provider rate-limit table and the bounded retry loop of
    server/rateLimiter.js. The module-level `Map` is the `table` field of a
    `RateLimiter` object; `Date.now()` is a `now` parameter, `sleep` advances a
    simulated clock and is recorded, and the operation being retried is a
    function from the attempt number to its outcome. */
module RateLimiter {
  import opened Common
  import opened Text

  // ---------------------------------------------------------------------------
  // Configuration
  // ---------------------------------------------------------------------------

  /** The retry settings; the multiplier is a whole number here. */
  datatype RetryConfig = RetryConfig(maxRetries: int, initialDelay: int, maxDelay: int, backoffMultiplier: nat)

  const DefaultRetryConfig := RetryConfig(3, 1000, 60000, 2)

  /** The `RATE_LIMIT_*` variables after `parseInt`/`parseFloat`: `None` is NaN
      (unset or unparsable). */
  datatype RateEnv = RateEnv(maxRetries: Option<int>, initialDelay: Option<int>, maxDelay: Option<int>, backoffMultiplier: Option<nat>)

  /** `parsed || fallback`: NaN and 0 are falsy. */
  function OrDefault(parsed: Option<int>, fallback: int): (r: int)
    ensures parsed.Some? && parsed.value != 0 ==> r == parsed.value
    ensures parsed.None? || parsed.value == 0 ==> r == fallback
  {
    if parsed.Some? && parsed.value != 0 then parsed.value else fallback
  }

  /** `getRateLimitConfig` */
  function GetRateLimitConfig(env: RateEnv): RetryConfig
  {
    RetryConfig(
      OrDefault(env.maxRetries, DefaultRetryConfig.maxRetries),
      OrDefault(env.initialDelay, DefaultRetryConfig.initialDelay),
      OrDefault(env.maxDelay, DefaultRetryConfig.maxDelay),
      if env.backoffMultiplier.Some? && env.backoffMultiplier.value != 0 then env.backoffMultiplier.value
      else DefaultRetryConfig.backoffMultiplier)
  }

  /** Each setting comes from its variable when that parses to a non-zero
      number, and from the defaults {3, 1000, 60000, 2} otherwise. */
  lemma ConfigFallsBack(env: RateEnv)
    ensures var c := GetRateLimitConfig(env);
      && (c.maxRetries == if env.maxRetries.Some? && env.maxRetries.value != 0 then env.maxRetries.value else 3)
      && (c.initialDelay == if env.initialDelay.Some? && env.initialDelay.value != 0 then env.initialDelay.value else 1000)
      && (c.maxDelay == if env.maxDelay.Some? && env.maxDelay.value != 0 then env.maxDelay.value else 60000)
      && (c.backoffMultiplier ==
            if env.backoffMultiplier.Some? && env.backoffMultiplier.value != 0 then env.backoffMultiplier.value else 2)
      && c.backoffMultiplier >= 1
    ensures GetRateLimitConfig(RateEnv(None, None, None, None)) == DefaultRetryConfig
  {
  }

  // ---------------------------------------------------------------------------
  // The table
  // ---------------------------------------------------------------------------

  datatype RateState = RateState(resetTime: int, retryAfter: int)

  /** What `getRateLimitInfo` and `getAllRateLimits` report for an entry. */
  datatype RateInfo = RateInfo(isLimited: bool, retryAfter: int, resetTime: int)

  /** The `retryAfter` hint carried by a failure (its own field, or the
      `retry-after` header): absent or falsy, or a number of seconds. */
  datatype RetryHint = NoHint | Seconds(n: int)

  function Max(a: int, b: int): int { if a < b then b else a }
  function Min(a: int, b: int): int { if a < b then a else b }

  /** A provider is limited while `now` is before its reset time. */
  predicate Limited(table: map<string, RateState>, provider: string, now: int)
  {
    provider in table && now < table[provider].resetTime
  }

  /** The table after `isRateLimited`: an expired entry is removed. */
  function Evict(table: map<string, RateState>, provider: string, now: int): map<string, RateState>
  {
    if Limited(table, provider, now) then table else table - {provider}
  }

  /** The delay `setRateLimit` applies: the hint in milliseconds, or the
      configured initial delay read from the environment. */
  function LimitDelay(hint: RetryHint, env: RateEnv): int
  {
    if hint.Seconds? then hint.n * 1000 else GetRateLimitConfig(env).initialDelay
  }

  /** The table after `setRateLimit`. */
  function WithLimit(table: map<string, RateState>, provider: string, hint: RetryHint, now: int, env: RateEnv): map<string, RateState>
  {
    var delay := LimitDelay(hint, env);
    table[provider := RateState(now + delay, delay)]
  }

  function InfoOf(state: RateState, now: int): RateInfo
  {
    var remaining := Max(0, state.resetTime - now);
    RateInfo(remaining > 0, remaining, state.resetTime)
  }

  /** `isRateLimited` keeps a live entry and drops an expired one; no other
      provider's entry is touched. */
  lemma EvictTouchesOnlyProvider(table: map<string, RateState>, provider: string, now: int)
    ensures var t := Evict(table, provider, now);
      && (Limited(table, provider, now) ==> t == table)
      && (!Limited(table, provider, now) ==> provider !in t)
      && (forall q :: q != provider ==> (q in t <==> q in table))
      && (forall q :: q in t ==> t[q] == table[q])
  {
  }

  /** `setRateLimit` replaces any earlier entry, even one that would have
      lasted longer, and leaves every other provider alone. */
  lemma WithLimitReplaces(table: map<string, RateState>, provider: string, hint: RetryHint, now: int, env: RateEnv)
    ensures var t := WithLimit(table, provider, hint, now, env);
      && provider in t
      && t[provider].resetTime == now + LimitDelay(hint, env)
      && t[provider].retryAfter == LimitDelay(hint, env)
      && (hint.Seconds? ==> t[provider].retryAfter == hint.n * 1000)
      && (hint.NoHint? ==> t[provider].retryAfter == GetRateLimitConfig(env).initialDelay)
      && (forall q :: q != provider ==> (q in t <==> q in table))
      && (forall q :: q != provider && q in t ==> t[q] == table[q])
  {
  }

  /** The remaining time is never negative, and a provider is reported as
      limited exactly when time remains, i.e. before its reset time. */
  lemma InfoConsistent(state: RateState, now: int)
    ensures InfoOf(state, now).retryAfter >= 0
    ensures InfoOf(state, now).isLimited <==> InfoOf(state, now).retryAfter > 0
    ensures InfoOf(state, now).isLimited <==> now < state.resetTime
    ensures InfoOf(state, now).isLimited ==> InfoOf(state, now).retryAfter == state.resetTime - now
  {
  }

  // ---------------------------------------------------------------------------
  // The retried operation
  // ---------------------------------------------------------------------------

  /** A failure: its `status`, its `message` (if any) and its retry hint. */
  datatype CallError = CallError(status: Option<int>, message: Option<string>, hint: RetryHint)

  datatype Outcome = Success(value: JsValue) | Failure(error: CallError)

  predicate IsRateLimitError(e: CallError)
  {
    e.status == Some(429) || (e.message.Some? && (Contains(e.message.value, "429") || Contains(e.message.value, "rate limit")))
  }

  predicate IsUnavailableError(e: CallError)
  {
    e.status == Some(503) || (e.message.Some? && Contains(e.message.value, "503"))
  }

  predicate Retryable(o: Outcome)
  {
    o.Failure? && (IsRateLimitError(o.error) || IsUnavailableError(o.error))
  }

  /** `new Error('Failed after N retries')` */
  function FailedAfter(maxRetries: int): CallError
  {
    CallError(None, Some("Failed after " + IntDecimal(maxRetries) + " retries"), NoHint)
  }

  datatype Sleep = WaitForLimit(ms: int) | Backoff(ms: int)

  datatype RetryResult = Succeeded(value: JsValue) | GaveUp(error: CallError)

  function Pow(b: nat, e: nat): nat
  {
    if e == 0 then 1 else b * Pow(b, e - 1)
  }

  /** `Math.min(initialDelay * multiplier ** attempt, maxDelay)` */
  function BackoffDelay(cfg: RetryConfig, attempt: nat): (d: int)
    ensures d <= cfg.maxDelay && d <= cfg.initialDelay * Pow(cfg.backoffMultiplier, attempt)
    ensures d == cfg.maxDelay || d == cfg.initialDelay * Pow(cfg.backoffMultiplier, attempt)
  {
    Min(cfg.initialDelay * Pow(cfg.backoffMultiplier, attempt), cfg.maxDelay)
  }

  // ---------------------------------------------------------------------------
  // `callWithRetry`, as a specification
  // ---------------------------------------------------------------------------

  /** What the loop carries from one attempt to the next. */
  datatype LoopState = LoopState(table: map<string, RateState>, clock: int, sleeps: seq<Sleep>, lastError: Option<CallError>)

  datatype Step = Done(result: RetryResult, state: LoopState) | Next(state: LoopState)

  /** The wait before an attempt: while the provider is limited, sleep for its
      remaining time. An expired entry is dropped. */
  function WaitStage(provider: string, st: LoopState): LoopState
  {
    var table := Evict(st.table, provider, st.clock);
    if Limited(st.table, provider, st.clock) && InfoOf(table[provider], st.clock).retryAfter > 0 then
      var wait := InfoOf(table[provider], st.clock).retryAfter;
      LoopState(table, st.clock + wait, st.sleeps + [WaitForLimit(wait)], st.lastError)
    else
      LoopState(table, st.clock, st.sleeps, st.lastError)
  }

  /** One pass of the loop body. */
  function Attempt(fn: nat -> Outcome, provider: string, cfg: RetryConfig, env: RateEnv, attempt: nat, st: LoopState): Step
  {
    var w := WaitStage(provider, st);
    match fn(attempt)
    case Success(v) => Done(Succeeded(v), w)
    case Failure(e) =>
      var table := if IsRateLimitError(e) then WithLimit(w.table, provider, e.hint, w.clock, env) else w.table;
      if (IsRateLimitError(e) || IsUnavailableError(e)) && attempt < cfg.maxRetries then
        var delay := BackoffDelay(cfg, attempt);
        Next(LoopState(table, w.clock + Max(delay, 0), w.sleeps + [Backoff(delay)], Some(e)))
      else
        Done(GaveUp(e), LoopState(table, w.clock, w.sleeps, Some(e)))
  }

  /** What one pass does after its wait: a success ends the loop with the
      state after the wait; a failure records a 429's limit in the table before
      the retry decision, and is retried, after a backoff of
      `BackoffDelay(cfg, attempt)`, exactly when it is a 429 or a 503 and
      retries remain. */
  lemma AttemptOutcome(fn: nat -> Outcome, provider: string, cfg: RetryConfig, env: RateEnv, attempt: nat, st: LoopState)
    ensures fn(attempt).Success? ==>
      Attempt(fn, provider, cfg, env, attempt, st) == Done(Succeeded(fn(attempt).value), WaitStage(provider, st))
    ensures fn(attempt).Failure? ==>
      var w, step, e := WaitStage(provider, st), Attempt(fn, provider, cfg, env, attempt, st), fn(attempt).error;
      && step.state.table == (if IsRateLimitError(e) then WithLimit(w.table, provider, e.hint, w.clock, env) else w.table)
      && step.state.lastError == Some(e)
      && (step.Next? <==> Retryable(fn(attempt)) && attempt < cfg.maxRetries)
      && (step.Next? ==>
            && step.state.sleeps == w.sleeps + [Backoff(BackoffDelay(cfg, attempt))]
            && step.state.clock == w.clock + Max(BackoffDelay(cfg, attempt), 0))
      && (step.Done? ==> step.result == GaveUp(e) && step.state.sleeps == w.sleeps && step.state.clock == w.clock)
  {
  }

  /** Where the loop ends: the result, the final state, and how many times the
      operation was invoked. */
  datatype Run = Run(result: RetryResult, state: LoopState, calls: nat)

  /** The loop from `attempt` on. */
  function RetryFrom(fn: nat -> Outcome, provider: string, cfg: RetryConfig, env: RateEnv, attempt: nat, st: LoopState): Run
    decreases if attempt <= cfg.maxRetries then cfg.maxRetries + 1 - attempt else 0
  {
    if attempt > cfg.maxRetries then
      Run(GaveUp(if st.lastError.Some? then st.lastError.value else FailedAfter(cfg.maxRetries)), st, attempt)
    else match Attempt(fn, provider, cfg, env, attempt, st)
      case Done(result, st') => Run(result, st', attempt + 1)
      case Next(st') => RetryFrom(fn, provider, cfg, env, attempt + 1, st')
  }

  function EffectiveConfig(config: Option<RetryConfig>, env: RateEnv): RetryConfig
  {
    if config.Some? then config.value else GetRateLimitConfig(env)
  }

  function RetrySpec(fn: nat -> Outcome, provider: string, config: Option<RetryConfig>, env: RateEnv,
                     table: map<string, RateState>, now: int): Run
  {
    RetryFrom(fn, provider, EffectiveConfig(config, env), env, 0, LoopState(table, now, [], None))
  }

  // ---------------------------------------------------------------------------
  // What the retry loop guarantees
  // ---------------------------------------------------------------------------

  /** The operation runs at most `maxRetries + 1` times, and at least once
      whenever the loop is entered. */
  lemma {:induction false} CallsBounded(fn: nat -> Outcome, provider: string, cfg: RetryConfig, env: RateEnv, attempt: nat, st: LoopState)
    ensures var run := RetryFrom(fn, provider, cfg, env, attempt, st);
      && attempt <= run.calls <= Max(attempt, cfg.maxRetries + 1)
      && (attempt <= cfg.maxRetries ==> run.calls > attempt)
    decreases if attempt <= cfg.maxRetries then cfg.maxRetries + 1 - attempt else 0
  {
    if attempt <= cfg.maxRetries && Attempt(fn, provider, cfg, env, attempt, st).Next? {
      CallsBounded(fn, provider, cfg, env, attempt + 1, Attempt(fn, provider, cfg, env, attempt, st).state);
    }
  }

  predicate SleepsWithin(sleeps: seq<Sleep>, cfg: RetryConfig)
  {
    forall k :: 0 <= k < |sleeps| ==>
      (sleeps[k].Backoff? ==> sleeps[k].ms <= cfg.maxDelay) && (sleeps[k].WaitForLimit? ==> sleeps[k].ms > 0)
  }

  /** Every backoff sleep is at most `maxDelay`, and every wait for a limited
      provider is a positive remaining time; earlier sleeps are kept. */
  lemma {:induction false} SleepsBounded(fn: nat -> Outcome, provider: string, cfg: RetryConfig, env: RateEnv, attempt: nat, st: LoopState)
    requires SleepsWithin(st.sleeps, cfg)
    ensures var run := RetryFrom(fn, provider, cfg, env, attempt, st);
      SleepsWithin(run.state.sleeps, cfg) && st.sleeps <= run.state.sleeps
    decreases if attempt <= cfg.maxRetries then cfg.maxRetries + 1 - attempt else 0
  {
    if attempt <= cfg.maxRetries {
      var w := WaitStage(provider, st);
      assert SleepsWithin(w.sleeps, cfg) && st.sleeps <= w.sleeps;
      var step := Attempt(fn, provider, cfg, env, attempt, st);
      assert SleepsWithin(step.state.sleeps, cfg) && st.sleeps <= step.state.sleeps;
      if step.Next? {
        SleepsBounded(fn, provider, cfg, env, attempt + 1, step.state);
      }
    }
  }

  /** Whether a run ended on an invocation whose outcome it reports: a
      success as it came, a failure as it came, and after a rate-limit failure
      the provider's limit recorded in the table. */
  predicate EndsOnLastCall(fn: nat -> Outcome, provider: string, env: RateEnv, run: Run)
  {
    && (run.result.Succeeded? ==> run.calls > 0 && fn(run.calls - 1) == Success(run.result.value))
    && (run.result.GaveUp? ==> run.calls > 0 && fn(run.calls - 1) == Failure(run.result.error))
    && (run.result.GaveUp? && IsRateLimitError(run.result.error) ==>
          provider in run.state.table && run.state.table[provider].retryAfter == LimitDelay(run.result.error.hint, env))
  }

  /** A pass that ends the loop reports the outcome of that pass's invocation. */
  lemma AttemptDone(fn: nat -> Outcome, provider: string, cfg: RetryConfig, env: RateEnv, attempt: nat, st: LoopState)
    requires Attempt(fn, provider, cfg, env, attempt, st).Done?
    ensures var step := Attempt(fn, provider, cfg, env, attempt, st);
      EndsOnLastCall(fn, provider, env, Run(step.result, step.state, attempt + 1))
  {
  }

  /** One unfolding of the loop: a pass that continues hands over to the next attempt. */
  lemma RetryFromNext(fn: nat -> Outcome, provider: string, cfg: RetryConfig, env: RateEnv, attempt: nat, st: LoopState)
    requires attempt <= cfg.maxRetries && Attempt(fn, provider, cfg, env, attempt, st).Next?
    ensures RetryFrom(fn, provider, cfg, env, attempt, st)
         == RetryFrom(fn, provider, cfg, env, attempt + 1, Attempt(fn, provider, cfg, env, attempt, st).state)
  {
  }

  /** One unfolding of the loop: a pass that ends it is the whole run. */
  lemma RetryFromDone(fn: nat -> Outcome, provider: string, cfg: RetryConfig, env: RateEnv, attempt: nat, st: LoopState)
    requires attempt <= cfg.maxRetries && Attempt(fn, provider, cfg, env, attempt, st).Done?
    ensures var step := Attempt(fn, provider, cfg, env, attempt, st);
      RetryFrom(fn, provider, cfg, env, attempt, st) == Run(step.result, step.state, attempt + 1)
  {
  }

  /** The last invocation decides the result of the whole loop. */
  lemma {:induction false} LastCallDecides(fn: nat -> Outcome, provider: string, cfg: RetryConfig, env: RateEnv, attempt: nat, st: LoopState)
    ensures var run := RetryFrom(fn, provider, cfg, env, attempt, st);
      run.calls > attempt ==> EndsOnLastCall(fn, provider, env, run)
    decreases if attempt <= cfg.maxRetries then cfg.maxRetries + 1 - attempt else 0
  {
    if attempt <= cfg.maxRetries {
      var step := Attempt(fn, provider, cfg, env, attempt, st);
      if step.Next? {
        RetryFromNext(fn, provider, cfg, env, attempt, st);
        LastCallDecides(fn, provider, cfg, env, attempt + 1, step.state);
        CallsBounded(fn, provider, cfg, env, attempt + 1, step.state);
      } else {
        RetryFromDone(fn, provider, cfg, env, attempt, st);
        AttemptDone(fn, provider, cfg, env, attempt, st);
      }
    } else {
      CallsBounded(fn, provider, cfg, env, attempt, st);
    }
  }

  /** After `k` retryable failures the loop reaches attempt `k`. */
  lemma {:induction false} ReachAttempt(fn: nat -> Outcome, provider: string, cfg: RetryConfig, env: RateEnv, attempt: nat, st: LoopState, k: nat)
    requires attempt <= k <= cfg.maxRetries
    requires forall j :: attempt <= j < k ==> Retryable(fn(j))
    ensures exists st' :: RetryFrom(fn, provider, cfg, env, attempt, st) == RetryFrom(fn, provider, cfg, env, k, st')
    decreases k - attempt
  {
    if attempt < k {
      assert Retryable(fn(attempt));
      var step := Attempt(fn, provider, cfg, env, attempt, st);
      assert step.Next?;
      ReachAttempt(fn, provider, cfg, env, attempt + 1, step.state, k);
      var st' :| RetryFrom(fn, provider, cfg, env, attempt + 1, step.state) == RetryFrom(fn, provider, cfg, env, k, st');
      assert RetryFrom(fn, provider, cfg, env, attempt, st) == RetryFrom(fn, provider, cfg, env, k, st');
    } else {
      assert RetryFrom(fn, provider, cfg, env, attempt, st) == RetryFrom(fn, provider, cfg, env, k, st);
    }
  }

  /** The first success after retryable failures is returned at once, after
      exactly `k + 1` invocations. */
  lemma FirstSuccessReturned(fn: nat -> Outcome, provider: string, config: Option<RetryConfig>, env: RateEnv,
                             table: map<string, RateState>, now: int, k: nat)
    requires k <= EffectiveConfig(config, env).maxRetries
    requires forall j :: 0 <= j < k ==> Retryable(fn(j))
    requires fn(k).Success?
    ensures RetrySpec(fn, provider, config, env, table, now).result == Succeeded(fn(k).value)
    ensures RetrySpec(fn, provider, config, env, table, now).calls == k + 1
  {
    var cfg := EffectiveConfig(config, env);
    ReachAttempt(fn, provider, cfg, env, 0, LoopState(table, now, [], None), k);
  }

  /** A failure that is neither 429 nor 503 is thrown at once: no further
      attempt follows it. */
  lemma OtherFailureStops(fn: nat -> Outcome, provider: string, config: Option<RetryConfig>, env: RateEnv,
                          table: map<string, RateState>, now: int, k: nat)
    requires k <= EffectiveConfig(config, env).maxRetries
    requires forall j :: 0 <= j < k ==> Retryable(fn(j))
    requires fn(k).Failure? && !IsRateLimitError(fn(k).error) && !IsUnavailableError(fn(k).error)
    ensures RetrySpec(fn, provider, config, env, table, now).result == GaveUp(fn(k).error)
    ensures RetrySpec(fn, provider, config, env, table, now).calls == k + 1
  {
    var cfg := EffectiveConfig(config, env);
    ReachAttempt(fn, provider, cfg, env, 0, LoopState(table, now, [], None), k);
  }

  /** An operation that always fails with 429 runs exactly `maxRetries + 1`
      times, then its last error is thrown. */
  lemma AlwaysRateLimited(fn: nat -> Outcome, provider: string, config: Option<RetryConfig>, env: RateEnv,
                          table: map<string, RateState>, now: int)
    requires EffectiveConfig(config, env).maxRetries >= 0
    requires forall j :: fn(j).Failure? && IsRateLimitError(fn(j).error)
    ensures RetrySpec(fn, provider, config, env, table, now).calls == EffectiveConfig(config, env).maxRetries + 1
    ensures RetrySpec(fn, provider, config, env, table, now).result == GaveUp(fn(EffectiveConfig(config, env).maxRetries).error)
  {
    var cfg := EffectiveConfig(config, env);
    ReachAttempt(fn, provider, cfg, env, 0, LoopState(table, now, [], None), cfg.maxRetries);
  }

  /** With a negative retry count the loop never runs and the fallback error is thrown. */
  lemma NoAttemptsFallback(fn: nat -> Outcome, provider: string, config: Option<RetryConfig>, env: RateEnv,
                           table: map<string, RateState>, now: int)
    requires EffectiveConfig(config, env).maxRetries < 0
    ensures RetrySpec(fn, provider, config, env, table, now).calls == 0
    ensures RetrySpec(fn, provider, config, env, table, now).result == GaveUp(FailedAfter(EffectiveConfig(config, env).maxRetries))
  {
  }

  // ---------------------------------------------------------------------------
  // The table object
  // ---------------------------------------------------------------------------

  class RateLimiter {
    /** `rateLimitState`: provider name to its limit. */
    var table: map<string, RateState>

    constructor()
      ensures table == map[]
    {
      table := map[];
    }

    /** `isRateLimited` */
    method IsRateLimited(provider: string, now: int) returns (limited: bool)
      modifies this
      ensures limited <==> Limited(old(table), provider, now)
      ensures table == Evict(old(table), provider, now)
    {
      if provider !in table {
        return false;
      }
      if now < table[provider].resetTime {
        return true;
      }
      table := table - {provider};
      limited := false;
    }

    /** `setRateLimit` */
    method SetRateLimit(provider: string, hint: RetryHint, now: int, env: RateEnv)
      modifies this
      ensures table == WithLimit(old(table), provider, hint, now, env)
    {
      var config := GetRateLimitConfig(env);
      var delay := if hint.Seconds? then hint.n * 1000 else config.initialDelay;
      table := table[provider := RateState(now + delay, delay)];
    }

    /** `getRateLimitInfo`: nothing for an unknown provider. */
    function GetRateLimitInfo(provider: string, now: int): (info: Option<RateInfo>)
      reads this
      ensures info.None? <==> provider !in table
      ensures info.Some? ==> info.value.retryAfter >= 0 && info.value.resetTime == table[provider].resetTime
      ensures info.Some? ==> (info.value.isLimited <==> info.value.retryAfter > 0)
      ensures info.Some? ==> (info.value.isLimited <==> Limited(table, provider, now))
    {
      if provider !in table then None else Some(InfoOf(table[provider], now))
    }

    /** `clearRateLimits` */
    method ClearRateLimits()
      modifies this
      ensures table == map[]
    {
      table := map[];
    }

    /** `getAllRateLimits`: one report per provider in the table. */
    method GetAllRateLimits(now: int) returns (limits: map<string, RateInfo>)
      ensures limits.Keys == table.Keys
      ensures forall p :: p in limits ==> limits[p] == InfoOf(table[p], now)
    {
      limits := map[];
      var rest := table.Keys;
      while rest != {}
        invariant rest <= table.Keys
        invariant limits.Keys == table.Keys - rest
        invariant forall p :: p in limits ==> limits[p] == InfoOf(table[p], now)
        decreases |rest|
      {
        var p :| p in rest;
        limits := limits[p := InfoOf(table[p], now)];
        rest := rest - {p};
      }
    }

    /** `callWithRetry(fn, provider, config)`. Returns the outcome, the sleeps
        it asked for in order, and how many times `fn` ran. */
    method CallWithRetry(fn: nat -> Outcome, provider: string, config: Option<RetryConfig>, env: RateEnv, now: int)
      returns (result: RetryResult, sleeps: seq<Sleep>, calls: nat)
      modifies this
      ensures var run := RetrySpec(fn, provider, config, env, old(table), now);
        result == run.result && sleeps == run.state.sleeps && calls == run.calls && table == run.state.table
    {
      var cfg := if config.Some? then config.value else GetRateLimitConfig(env);
      var clock := now;
      var lastError: Option<CallError> := None;
      sleeps := [];
      var attempt: nat := 0;
      ghost var spec := RetryFrom(fn, provider, cfg, env, 0, LoopState(table, now, [], None));
      while attempt <= cfg.maxRetries
        invariant RetryFrom(fn, provider, cfg, env, attempt, LoopState(table, clock, sleeps, lastError)) == spec
        decreases cfg.maxRetries + 1 - attempt
      {
        ghost var before := LoopState(table, clock, sleeps, lastError);
        var limited := IsRateLimited(provider, clock);
        if limited {
          var info := GetRateLimitInfo(provider, clock);
          if info.Some? && info.value.retryAfter > 0 {
            sleeps := sleeps + [WaitForLimit(info.value.retryAfter)];
            clock := clock + info.value.retryAfter;
          }
        }
        assert LoopState(table, clock, sleeps, lastError) == WaitStage(provider, before);
        ghost var step := Attempt(fn, provider, cfg, env, attempt, before);
        var outcome := fn(attempt);
        if outcome.Success? {
          assert step == Done(Succeeded(outcome.value), LoopState(table, clock, sleeps, lastError));
          RetryFromDone(fn, provider, cfg, env, attempt, before);
          result := Succeeded(outcome.value);
          calls := attempt + 1;
          return;
        }
        var e := outcome.error;
        lastError := Some(e);
        if IsRateLimitError(e) {
          SetRateLimit(provider, e.hint, clock, env);
        }
        if (IsRateLimitError(e) || IsUnavailableError(e)) && attempt < cfg.maxRetries {
          var delay := BackoffDelay(cfg, attempt);
          sleeps := sleeps + [Backoff(delay)];
          clock := clock + Max(delay, 0);
          assert step == Next(LoopState(table, clock, sleeps, lastError));
          RetryFromNext(fn, provider, cfg, env, attempt, before);
          attempt := attempt + 1;
          continue;
        }
        assert step == Done(GaveUp(e), LoopState(table, clock, sleeps, lastError));
        RetryFromDone(fn, provider, cfg, env, attempt, before);
        result := GaveUp(e);
        calls := attempt + 1;
        return;
      }
      result := GaveUp(if lastError.Some? then lastError.value else FailedAfter(cfg.maxRetries));
      calls := attempt;
    }
  }
}
