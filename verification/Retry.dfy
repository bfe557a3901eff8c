/** retry.Do: a bounded retry loop with capped exponential backoff in int64
    nanoseconds. The function under retry and the select are an environment,
    so that every behaviour of both is some `Env`. */
module Retry {
  import opened Domain

  const TWO_64: int := 0x1_0000_0000_0000_0000

  datatype Config = Config(maxAttempts: int, baseDelay: int64, maxDelay: int64)

  /** Nanoseconds: three attempts, 100 ms, capped at 5 s. */
  const DEFAULT_CONFIG := Config(3, 100_000_000, 5_000_000_000)

  /** What the select finds when it returns: which of ctx.Done() and the timer
      is ready, and which one it takes when both are. */
  datatype Wakeup = TimerOnly | DoneOnly | Both(takesDone: bool) {

    predicate Cancels() {
      DoneOnly? || (Both? && takesDone)
    }
  }

  /** The answer of fn to each attempt (None is nil) and the outcome of the
      select after it. `huge` is the result of converting a float64 of 2^63 or
      more to int64, which Go leaves to the implementation. */
  datatype Env = Env(answer: int -> Option<string>, wakeup: int -> Wakeup, huge: int64)

  datatype Event =
    | Called(attempt: int, err: Option<string>)
    | Waited(attempt: int, delay: int64, fired: bool)

  datatype Outcome =
    | Success
    | Cancelled(after: int)
    | Exhausted(attempts: int, last: Option<string>)

  // ---------------------------------------------------------------------
  // Backoff arithmetic
  // ---------------------------------------------------------------------

  function Pow2(n: nat): (p: int)
    ensures p >= 1
  {
    if n == 0 then 1 else 2 * Pow2(n - 1)
  }

  /** Two's-complement reduction to 64 bits. */
  function Wrap(n: int): (w: int64)
    ensures -INT64_MAX - 1 <= n <= INT64_MAX ==> w == n
    ensures INT64_MAX < n < TWO_64 ==> w == n - TWO_64
  {
    var m := n % TWO_64;
    if m > INT64_MAX then m - TWO_64 else m
  }

  /** time.Duration(math.Pow(2, float64(attempt-1))). Powers below 2^63 are
      exact in both types. */
  function Factor(attempt: int, huge: int64): int64
    requires attempt >= 1
  {
    if Pow2(attempt - 1) <= INT64_MAX then Pow2(attempt - 1) else huge
  }

  /** The delay requested after a failed attempt. */
  function Delay(cfg: Config, huge: int64, attempt: int): int64
    requires attempt >= 1
  {
    var d := Wrap(Factor(attempt, huge) * cfg.baseDelay);
    if d > cfg.maxDelay then cfg.maxDelay else d
  }

  /** The backoff the documentation describes, over unbounded integers. */
  function Ideal(cfg: Config, attempt: int): int
    requires attempt >= 1
  {
    var d := Pow2(attempt - 1) * cfg.baseDelay;
    if d > cfg.maxDelay then cfg.maxDelay else d
  }

  /** Every wait that a call with this configuration can request is the
      documented one. */
  ghost predicate ExactBackoff(cfg: Config, huge: int64) {
    forall a :: 1 <= a < cfg.maxAttempts ==> Delay(cfg, huge, a) == Ideal(cfg, a)
  }

  /** The largest uncapped delay still fits in int64. */
  predicate Fits(cfg: Config) {
    cfg.maxAttempts < 2 || Pow2(cfg.maxAttempts - 2) * cfg.baseDelay <= INT64_MAX
  }

  lemma {:induction false} Pow2Monotone(m: nat, n: nat)
    requires m <= n
    ensures Pow2(m) <= Pow2(n)
  {
    if m == n {
    } else {
      Pow2Monotone(m, n - 1);
    }
  }

  lemma ScaleMonotone(p: int, q: int, b: int)
    requires p <= q && 0 <= b
    ensures p * b <= q * b
  {
  }

  lemma ExactWhenItFits(cfg: Config, huge: int64, a: int)
    requires cfg.baseDelay > 0 && a >= 1
    requires Pow2(a - 1) * cfg.baseDelay <= INT64_MAX
    ensures Delay(cfg, huge, a) == Ideal(cfg, a)
  {
  }

  /** The first shift at which the product leaves int64. */
  lemma {:induction false} FirstOverflow(cfg: Config, n: nat) returns (m: nat)
    requires 0 < cfg.baseDelay && Pow2(n) * cfg.baseDelay > INT64_MAX
    ensures 1 <= m <= n
    ensures Pow2(m - 1) * cfg.baseDelay <= INT64_MAX < Pow2(m) * cfg.baseDelay
  {
    if Pow2(n - 1) * cfg.baseDelay <= INT64_MAX {
      m := n;
    } else {
      m := FirstOverflow(cfg, n - 1);
    }
  }

  /** When the product first leaves int64 it wraps to a negative number, so
      the wait after that attempt is negative instead of the cap. */
  lemma FirstOverflowIsNegative(cfg: Config, huge: int64, m: nat)
    requires cfg.baseDelay >= 2 && cfg.maxDelay >= 0 && m >= 1
    requires Pow2(m - 1) * cfg.baseDelay <= INT64_MAX < Pow2(m) * cfg.baseDelay
    ensures Delay(cfg, huge, m + 1) < 0 <= Ideal(cfg, m + 1)
  {
  }

  /** The documented backoff is what the code computes for every wait, exactly
      when the largest uncapped delay fits in int64. A base of one nanosecond
      is the one case in which the float conversion overflows before the
      product does, and there the platform's conversion decides. */
  lemma ExactBackoffIff(cfg: Config, huge: int64)
    requires cfg.baseDelay > 0 && cfg.maxDelay >= 0
    ensures ExactBackoff(cfg, huge) <==>
            Fits(cfg) || (cfg.baseDelay == 1 && huge >= cfg.maxDelay)
  {
    if Fits(cfg) {
      forall a | 1 <= a < cfg.maxAttempts
        ensures Delay(cfg, huge, a) == Ideal(cfg, a)
      {
        Pow2Monotone(a - 1, cfg.maxAttempts - 2);
        ScaleMonotone(Pow2(a - 1), Pow2(cfg.maxAttempts - 2), cfg.baseDelay);
        ExactWhenItFits(cfg, huge, a);
      }
    } else if cfg.baseDelay == 1 {
      var a := cfg.maxAttempts - 1;
      assert Delay(cfg, huge, a) == if huge > cfg.maxDelay then cfg.maxDelay else huge;
      assert Ideal(cfg, a) == cfg.maxDelay;
      forall b | 1 <= b < cfg.maxAttempts && huge >= cfg.maxDelay
        ensures Delay(cfg, huge, b) == Ideal(cfg, b)
      {
        if Pow2(b - 1) <= INT64_MAX {
          ExactWhenItFits(cfg, huge, b);
        }
      }
    } else {
      var m := FirstOverflow(cfg, cfg.maxAttempts - 2);
      FirstOverflowIsNegative(cfg, huge, m);
      assert Delay(cfg, huge, m + 1) != Ideal(cfg, m + 1);
    }
  }

  lemma Pow2At37()
    ensures Pow2(36) == 0x10_0000_0000 && Pow2(37) == 0x20_0000_0000
  {
    assert Pow2(6) == 0x40;
    assert Pow2(12) == 0x40 * Pow2(6);
    assert Pow2(18) == 0x40 * Pow2(12);
    assert Pow2(24) == 0x40 * Pow2(18);
    assert Pow2(30) == 0x40 * Pow2(24);
  }

  lemma DefaultBaseFits(cfg: Config)
    requires cfg.baseDelay == DEFAULT_CONFIG.baseDelay
    ensures Fits(cfg) <==> cfg.maxAttempts <= 38
  {
    if cfg.maxAttempts >= 2 {
      var p := Pow2(cfg.maxAttempts - 2);
      assert cfg.maxAttempts <= 38 <==> p <= 0x10_0000_0000 by {
        Pow2At37();
        if cfg.maxAttempts <= 38 {
          Pow2Monotone(cfg.maxAttempts - 2, 36);
        } else {
          Pow2Monotone(37, cfg.maxAttempts - 2);
        }
      }
      assert cfg.maxAttempts > 38 ==> p >= 0x20_0000_0000 by {
        Pow2At37();
        if cfg.maxAttempts > 38 {
          Pow2Monotone(37, cfg.maxAttempts - 2);
        }
      }
      assert 0x10_0000_0000 * cfg.baseDelay <= INT64_MAX < 0x20_0000_0000 * cfg.baseDelay;
    }
  }

  /** With the 100 ms base the documented backoff holds up to 38 attempts and
      fails from 39 on. */
  lemma ExactBackoffForDefaultBase(cfg: Config, huge: int64)
    requires cfg.baseDelay == DEFAULT_CONFIG.baseDelay && cfg.maxDelay >= 0
    ensures ExactBackoff(cfg, huge) <==> cfg.maxAttempts <= 38
  {
    ExactBackoffIff(cfg, huge);
    DefaultBaseFits(cfg);
  }

  /** The shipped waits: 100 ms, doubled each time, from the seventh on 5 s. */
  lemma ShippedDelays(huge: int64, a: int)
    requires 1 <= a <= 37
    ensures Delay(DEFAULT_CONFIG, huge, a) ==
            if a == 1 then 100_000_000 else if a == 2 then 200_000_000 else if a == 3 then 400_000_000
            else if a == 4 then 800_000_000 else if a == 5 then 1_600_000_000 else if a == 6 then 3_200_000_000
            else 5_000_000_000
  {
    assert Pow2(0) == 1 && Pow2(1) == 2 && Pow2(2) == 4 && Pow2(3) == 8 && Pow2(4) == 16 && Pow2(5) == 32;
    assert Pow2(6) == 64;
    assert Pow2(a - 1) <= 0x10_0000_0000 by {
      Pow2At37();
      Pow2Monotone(a - 1, 36);
    }
    if a >= 7 {
      Pow2Monotone(6, a - 1);
    }
  }

  lemma IdealMonotone(cfg: Config, a: int, b: int)
    requires cfg.baseDelay > 0 && 1 <= a <= b
    ensures Ideal(cfg, a) <= Ideal(cfg, b)
  {
    Pow2Monotone(a - 1, b - 1);
    ScaleMonotone(Pow2(a - 1), Pow2(b - 1), cfg.baseDelay);
  }

  /** Sum of the first n requested waits. */
  function TotalWait(cfg: Config, huge: int64, n: nat): int {
    if n == 0 then 0 else TotalWait(cfg, huge, n - 1) + Delay(cfg, huge, n)
  }

  /** How many of the first n waits stay below the cap. */
  function Growing(cfg: Config, n: nat): (c: nat)
    ensures c <= n
  {
    if n == 0 then 0
    else if Pow2(n - 1) * cfg.baseDelay < cfg.maxDelay then n
    else Growing(cfg, n - 1)
  }

  /** Where the backoff is exact the requested waits never decrease. */
  lemma WaitsNeverDecrease(cfg: Config, huge: int64, a: int, b: int)
    requires cfg.baseDelay > 0
    requires ExactBackoff(cfg, huge) && 1 <= a <= b < cfg.maxAttempts
    ensures Delay(cfg, huge, a) <= Delay(cfg, huge, b)
  {
    IdealMonotone(cfg, a, b);
  }

  /** Where the backoff is exact the waits sum to a geometric part up to the
      cap followed by a linear part. */
  lemma {:induction false} TotalWaitClosedForm(cfg: Config, huge: int64, n: nat)
    requires cfg.baseDelay > 0 && cfg.maxDelay >= 0
    requires ExactBackoff(cfg, huge) && n < cfg.maxAttempts
    ensures var c := Growing(cfg, n);
            TotalWait(cfg, huge, n) == (Pow2(c) - 1) * cfg.baseDelay + (n - c) * cfg.maxDelay
  {
    if n == 0 {
    } else {
      TotalWaitClosedForm(cfg, huge, n - 1);
      assert Delay(cfg, huge, n) == Ideal(cfg, n);
      var c := Growing(cfg, n - 1);
      if Pow2(n - 1) * cfg.baseDelay < cfg.maxDelay {
        GrowingIsPrefix(cfg, n - 1);
        OneMoreTerm(Pow2(n - 1), cfg.baseDelay);
        assert (n - 1 - c) * cfg.maxDelay == (n - n) * cfg.maxDelay == 0;
      } else {
        OneMoreCap(n - c, cfg.maxDelay);
      }
    }
  }

  lemma OneMoreTerm(p: int, b: int)
    ensures (2 * p - 1) * b == (p - 1) * b + p * b
  {
  }

  lemma OneMoreCap(k: int, m: int)
    ensures k * m == (k - 1) * m + m
  {
  }

  lemma {:induction false} GrowingIsPrefix(cfg: Config, n: nat)
    requires cfg.baseDelay > 0 && Pow2(n) * cfg.baseDelay < cfg.maxDelay
    ensures Growing(cfg, n) == n
  {
    if n == 0 {
    } else {
      assert Pow2(n) * cfg.baseDelay == 2 * (Pow2(n - 1) * cfg.baseDelay);
    }
  }

  // ---------------------------------------------------------------------
  // The loop
  // ---------------------------------------------------------------------

  /** Calls sit at even positions, waits at odd ones, numbered from one; every
      event that has a successor failed (a call) or ran out (a wait). */
  ghost predicate Alternates(cfg: Config, huge: int64, trace: seq<Event>) {
    && (forall i :: 0 <= i < |trace| && i % 2 == 0 ==>
          trace[i].Called? && trace[i].attempt == i / 2 + 1)
    && (forall i :: 0 <= i < |trace| && i % 2 == 1 ==>
          trace[i].Waited? && trace[i].attempt == i / 2 + 1 && trace[i].delay == Delay(cfg, huge, i / 2 + 1))
    && (forall i :: 0 <= i < |trace| - 1 ==>
          if i % 2 == 0 then trace[i].Called? && trace[i].err.Some? else trace[i].Waited? && trace[i].fired)
  }

  /** What a call of Do may do, said without an environment: the shape of its
      trace, and which ending goes with which outcome. */
  ghost predicate Admissible(cfg: Config, huge: int64, trace: seq<Event>, out: Outcome) {
    && Alternates(cfg, huge, trace)
    && |trace| <= (if cfg.maxAttempts > 0 then 2 * cfg.maxAttempts - 1 else 0)
    && match out
       case Success =>
         trace != [] && trace[|trace| - 1].Called? && trace[|trace| - 1].err.None?
       case Cancelled(k) =>
         trace != [] && trace[|trace| - 1].Waited? && !trace[|trace| - 1].fired && |trace| == 2 * k
       case Exhausted(m, last) =>
         && m == cfg.maxAttempts
         && if m <= 0 then last.None?
            else |trace| == 2 * m - 1 && trace[|trace| - 1].Called?
                 && last.Some? && trace[|trace| - 1].err == last
  }

  /** The trace reports the answers and wakeups of the environment. */
  ghost predicate Follows(env: Env, trace: seq<Event>) {
    forall i :: 0 <= i < |trace| ==>
      match trace[i]
      case Called(a, err) => err == env.answer(a)
      case Waited(a, _, fired) => fired == !env.wakeup(a).Cancels()
  }

  lemma AppendCall(cfg: Config, env: Env, trace: seq<Event>, attempt: int)
    requires Alternates(cfg, env.huge, trace) && Follows(env, trace)
    requires attempt >= 1 && |trace| == 2 * (attempt - 1)
    requires trace != [] ==> trace[|trace| - 1].Waited? && trace[|trace| - 1].fired
    ensures var t := trace + [Called(attempt, env.answer(attempt))];
            Alternates(cfg, env.huge, t) && Follows(env, t)
  {
  }

  lemma AppendWait(cfg: Config, env: Env, trace: seq<Event>, attempt: int)
    requires Alternates(cfg, env.huge, trace) && Follows(env, trace)
    requires attempt >= 1 && |trace| == 2 * attempt - 1
    requires trace[|trace| - 1].Called? && trace[|trace| - 1].err.Some?
    ensures var t := trace + [Waited(attempt, Delay(cfg, env.huge, attempt), !env.wakeup(attempt).Cancels())];
            Alternates(cfg, env.huge, t) && Follows(env, t)
  {
  }

  /** The loop gets as far as attempt k: all before it fail and their waits run
      out. */
  ghost predicate Reaches(env: Env, k: int) {
    forall a :: 1 <= a < k ==> env.answer(a).Some? && !env.wakeup(a).Cancels()
  }

  /** How the loop ends, said without its trace. */
  ghost predicate Yields(cfg: Config, env: Env, out: Outcome) {
    match out
    case Success => exists k :: 1 <= k <= cfg.maxAttempts && Reaches(env, k) && env.answer(k).None?
    case Cancelled(k) =>
      1 <= k < cfg.maxAttempts && Reaches(env, k) && env.answer(k).Some? && env.wakeup(k).Cancels()
    case Exhausted(m, last) =>
      && m == cfg.maxAttempts
      && if m <= 0 then last.None? else Reaches(env, m) && env.answer(m).Some? && last == env.answer(m)
  }

  lemma YieldsOne(cfg: Config, env: Env, o1: Outcome, o2: Outcome)
    requires Yields(cfg, env, o1) && Yields(cfg, env, o2)
    ensures o1 == o2
  {
  }

  /** With the shipped configuration: three tries, the first nil wins, and a
      cancelled wait ends it. */
  lemma ThreeTries(env: Env, out: Outcome)
    requires Yields(DEFAULT_CONFIG, env, out)
    ensures out ==
            if env.answer(1).None? then Success
            else if env.wakeup(1).Cancels() then Cancelled(1)
            else if env.answer(2).None? then Success
            else if env.wakeup(2).Cancels() then Cancelled(2)
            else if env.answer(3).None? then Success
            else Exhausted(3, env.answer(3))
  {
  }

  /** The loop of retry.Do. Its events are what it is known by: Admissible is
      its exact behaviour, see DoIsDetermined and EveryAdmissibleTraceOccurs. */
  method Do(cfg: Config, env: Env) returns (out: Outcome, ghost trace: seq<Event>)
    ensures Yields(cfg, env, out)
    ensures Admissible(cfg, env.huge, trace, out)
    ensures Follows(env, trace)
  {
    trace := [];
    var lastErr: Option<string> := None;
    var attempt := 1;
    while attempt <= cfg.maxAttempts
      invariant 1 <= attempt
      invariant attempt <= cfg.maxAttempts || (attempt == 1 && cfg.maxAttempts <= 0)
      invariant |trace| == 2 * (attempt - 1)
      invariant Alternates(cfg, env.huge, trace) && Follows(env, trace)
      invariant trace != [] ==> trace[|trace| - 1].Waited? && trace[|trace| - 1].fired
      invariant attempt == 1 ==> lastErr.None?
      invariant Reaches(env, attempt)
      decreases cfg.maxAttempts - attempt
    {
      AppendCall(cfg, env, trace, attempt);
      lastErr := env.answer(attempt);
      trace := trace + [Called(attempt, lastErr)];
      if lastErr.None? {
        return Success, trace;
      }
      if attempt == cfg.maxAttempts {
        break;
      }
      AppendWait(cfg, env, trace, attempt);
      var delay := Delay(cfg, env.huge, attempt);
      var cancelled := env.wakeup(attempt).Cancels();
      trace := trace + [Waited(attempt, delay, !cancelled)];
      if cancelled {
        return Cancelled(attempt), trace;
      }
      attempt := attempt + 1;
    }
    out := Exhausted(cfg.maxAttempts, lastErr);
  }

  /** Admissible and Follows leave no freedom: the environment determines both
      the trace and the outcome. */
  lemma DoIsDetermined(cfg: Config, env: Env, t1: seq<Event>, o1: Outcome, t2: seq<Event>, o2: Outcome)
    requires Admissible(cfg, env.huge, t1, o1) && Follows(env, t1)
    requires Admissible(cfg, env.huge, t2, o2) && Follows(env, t2)
    ensures t1 == t2 && o1 == o2
  {
    if |t1| <= |t2| {
      CommonPrefix(cfg, env, t1, o1, t2, o2);
    } else {
      CommonPrefix(cfg, env, t2, o2, t1, o1);
    }
  }

  lemma CommonPrefix(cfg: Config, env: Env, t1: seq<Event>, o1: Outcome, t2: seq<Event>, o2: Outcome)
    requires Admissible(cfg, env.huge, t1, o1) && Follows(env, t1)
    requires Admissible(cfg, env.huge, t2, o2) && Follows(env, t2)
    requires |t1| <= |t2|
    ensures t1 == t2 && o1 == o2
  {
    forall i | 0 <= i < |t1| ensures t1[i] == t2[i] {}
    assert t1 == t2[..|t1|];
    assert t1 != [] ==> t1[|t1| - 1] == t2[|t1| - 1];
  }

  /** Conversely every admissible trace is produced under some environment, so
      Admissible is the exact behaviour of Do. */
  lemma EveryAdmissibleTraceOccurs(cfg: Config, huge: int64, trace: seq<Event>, out: Outcome) returns (env: Env)
    requires Admissible(cfg, huge, trace, out)
    ensures env.huge == huge && Follows(env, trace)
  {
    var answer := (a: int) =>
      if 1 <= a && 2 * (a - 1) < |trace| && trace[2 * (a - 1)].Called? then trace[2 * (a - 1)].err else None;
    var wakeup := (a: int) =>
      if 1 <= a && 2 * a - 1 < |trace| && trace[2 * a - 1].Waited? && trace[2 * a - 1].fired
      then TimerOnly else DoneOnly;
    env := Env(answer, wakeup, huge);
    forall i | 0 <= i < |trace|
      ensures match trace[i]
              case Called(a, err) => err == env.answer(a)
              case Waited(a, _, fired) => fired == !env.wakeup(a).Cancels()
    {
      if i % 2 == 0 {
        assert i == 2 * (trace[i].attempt - 1);
      } else {
        assert i == 2 * trace[i].attempt - 1;
      }
    }
  }

  /** Number of calls in a trace that returned nil. */
  function Successes(trace: seq<Event>): nat {
    if trace == [] then 0
    else Successes(trace[..|trace| - 1]) +
         (if trace[|trace| - 1].Called? && trace[|trace| - 1].err.None? then 1 else 0)
  }

  lemma {:induction false} NoSuccesses(trace: seq<Event>)
    requires forall i :: 0 <= i < |trace| && trace[i].Called? ==> trace[i].err.Some?
    ensures Successes(trace) == 0
  {
    if trace == [] {
    } else {
      NoSuccesses(trace[..|trace| - 1]);
    }
  }

  /** At most one call succeeds, and Do returns nil exactly when one did. */
  lemma SuccessIffOneCallSucceeded(cfg: Config, huge: int64, trace: seq<Event>, out: Outcome)
    requires Admissible(cfg, huge, trace, out)
    ensures Successes(trace) == (if out.Success? then 1 else 0)
  {
    if trace != [] {
      NoSuccesses(trace[..|trace| - 1]);
    }
  }
}
