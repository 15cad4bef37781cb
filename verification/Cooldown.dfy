/** Exponential cooldowns of the proxy pool. Durations are int64 nanoseconds. */
module Cooldown {
  import opened Text

  type Time = int
  type Duration = int

  datatype Config = Config(threshold: int, cooldown: Duration, cooldownMax: Duration, jitter: Duration)
  {
    /** What NewService leaves after filling in its defaults. */
    predicate Valid() {
      0 < threshold && 0 < cooldown <= cooldownMax <= MAX_INT64 && 0 <= jitter <= MAX_INT64
    }
  }

  const SECOND: Duration := 1_000_000_000
  const MINUTE: Duration := 60 * SECOND

  function WithDefaults(c: Config): (r: Config)
    requires InInt64(c.cooldown) && InInt64(c.cooldownMax) && InInt64(c.jitter)
    ensures r.Valid()
    ensures c.Valid() ==> r == c
    ensures r.threshold == if c.threshold > 0 then c.threshold else 3
    ensures r.cooldown == if c.cooldown > 0 then c.cooldown else 300 * SECOND
    ensures c.cooldownMax >= r.cooldown ==> r.cooldownMax == c.cooldownMax
    ensures 0 < c.cooldownMax < r.cooldown ==> r.cooldownMax == r.cooldown
    ensures c.cooldownMax <= 0 ==> r.cooldownMax == if r.cooldown <= 1800 * SECOND then 1800 * SECOND else r.cooldown
    ensures r.jitter == if c.jitter >= 0 then c.jitter else 30 * SECOND
  {
    var cooldown := if c.cooldown <= 0 then 5 * MINUTE else c.cooldown;
    var bound := if c.cooldownMax <= 0 then 30 * MINUTE else c.cooldownMax;
    Config(if c.threshold <= 0 then 3 else c.threshold,
           cooldown,
           if bound < cooldown then cooldown else bound,
           if c.jitter < 0 then 30 * SECOND else c.jitter)
  }

  function Pow2(n: nat): nat {
    if n == 0 then 1 else 2 * Pow2(n - 1)
  }

  function Min(a: int, b: int): int {
    if a <= b then a else b
  }

  /** The cooldown law: nothing below the threshold, then doubling up to the maximum. */
  function Law(cfg: Config, failures: int): Duration {
    if failures < cfg.threshold then 0
    else Min(cfg.cooldown * Pow2(failures - cfg.threshold), cfg.cooldownMax)
  }

  /** int64 addition wraps around. */
  function Wrap64(x: int): int {
    (x + 0x8000_0000_0000_0000) % 0x1_0000_0000_0000_0000 - 0x8000_0000_0000_0000
  }

  /** The largest random addition the jitter draws. */
  function JitterBound(wait: Duration, maxJitter: Duration): Duration {
    if wait <= 0 || maxJitter <= 0 then 0
    else if wait / 10 > 0 && maxJitter > wait / 10 then wait / 10
    else maxJitter
  }

  /** The jitter adds at most a tenth of the wait and at most its maximum, and can reach the smaller of the two. */
  lemma JitterIsSmall(wait: Duration, maxJitter: Duration)
    requires wait >= 10 && maxJitter > 0
    ensures var bound := JitterBound(wait, maxJitter);
      && 0 < bound <= maxJitter && 10 * bound <= wait
      && (bound == maxJitter || 10 * (bound + 1) > wait)
  {
  }

  predicate ValidDraw(cfg: Config, failures: int, draw: Option<Duration>) {
    draw.Some? ==> 0 <= draw.value <= JitterBound(Law(cfg, failures), cfg.jitter)
  }

  /** The cooldown after the given failures; draw is None when no jitter is installed. */
  function CooldownOf(cfg: Config, failures: int, draw: Option<Duration>): Duration {
    if failures < cfg.threshold then 0
    else
      var wait := Law(cfg, failures);
      Min(if draw.Some? then Wrap64(wait + draw.value) else wait, cfg.cooldownMax)
  }

  lemma {:induction false} Pow2Positive(n: nat)
    ensures Pow2(n) >= 1
  {
    if n > 0 {
      Pow2Positive(n - 1);
    }
  }

  lemma ScalePow2(c: nat, n: nat)
    ensures c * Pow2(n + 1) == 2 * (c * Pow2(n))
  {
    assert Pow2(n + 1) == 2 * Pow2(n);
    assert c * (2 * Pow2(n)) == 2 * (c * Pow2(n));
  }

  lemma {:induction false} ScaleGrows(c: nat, n: nat, more: nat)
    ensures c * Pow2(n) <= c * Pow2(n + more)
  {
    if more > 0 {
      ScaleGrows(c, n, more - 1);
      ScalePow2(c, n + more - 1);
    }
  }

  /** failureCooldown: the doubling loop never computes a value above the maximum. */
  method FailureCooldown(cfg: Config, consecutive: int, draw: Option<Duration>) returns (wait: Duration)
    requires cfg.Valid() && ValidDraw(cfg, consecutive, draw)
    ensures wait == CooldownOf(cfg, consecutive, draw)
  {
    if consecutive < cfg.threshold {
      return 0;
    }
    wait := cfg.cooldown;
    var level := consecutive - cfg.threshold;
    ghost var steps := 0;
    while level > 0 && wait < cfg.cooldownMax
      invariant 0 <= level && steps + level == consecutive - cfg.threshold
      invariant 0 < wait <= cfg.cooldownMax
      invariant wait == cfg.cooldown * Pow2(steps)
    {
      ScalePow2(cfg.cooldown, steps);
      if wait > cfg.cooldownMax / 2 {
        ScaleGrows(cfg.cooldown, steps + 1, level - 1);
        wait := cfg.cooldownMax;
        break;
      }
      wait := wait * 2;
      assert wait <= cfg.cooldownMax;
      level := level - 1;
      steps := steps + 1;
    }
    if level > 0 {
      ScaleGrows(cfg.cooldown, steps, level);
    }
    assert wait == Law(cfg, consecutive);
    if draw.Some? {
      wait := Wrap64(wait + draw.value);
    }
    if wait > cfg.cooldownMax {
      wait := cfg.cooldownMax;
    }
  }

  /** The law is monotone in the failures and stays within [0, CooldownMax]. */
  lemma LawIsMonotone(cfg: Config, m: int, n: int)
    requires cfg.Valid() && m <= n
    ensures 0 <= Law(cfg, m) <= Law(cfg, n) <= cfg.cooldownMax
    ensures m >= cfg.threshold ==> Law(cfg, m) >= cfg.cooldown
  {
    if m >= cfg.threshold {
      ScaleGrows(cfg.cooldown, 0, m - cfg.threshold);
      ScaleGrows(cfg.cooldown, m - cfg.threshold, n - m);
    } else if n >= cfg.threshold {
      ScaleGrows(cfg.cooldown, 0, n - cfg.threshold);
    }
  }

  /** A jittered cooldown stays between the law and the maximum exactly when the sum
      does not leave int64. */
  lemma JitterStaysInRange(cfg: Config, failures: int, draw: Duration)
    requires cfg.Valid() && failures >= cfg.threshold && ValidDraw(cfg, failures, Some(draw))
    ensures Law(cfg, failures) <= CooldownOf(cfg, failures, Some(draw)) <= cfg.cooldownMax
       <==> Law(cfg, failures) + draw <= MAX_INT64
    ensures cfg.cooldownMax + cfg.jitter <= MAX_INT64 ==> Law(cfg, failures) + draw <= MAX_INT64
  {
    LawIsMonotone(cfg, failures, failures);
    var sum := Law(cfg, failures) + draw;
    assert 0 <= sum <= 2 * MAX_INT64;
  }

  /** With a maximum of more than 265 years the jitter can wrap to a negative cooldown. */
  lemma JitterCanWrap()
    ensures var cfg := Config(1, MAX_INT64, MAX_INT64, 1);
            cfg.Valid() && ValidDraw(cfg, 1, Some(1)) && CooldownOf(cfg, 1, Some(1)) < 0
  {
    assert Pow2(0) == 1;
  }

  // ----- nextFailureState ------------------------------------------------

  datatype FailureState = FailureState(consecutive: int, cooldownUntil: Option<Time>)

  function NextFailureState(cfg: Config, st: FailureState, retryAfter: Duration, now: Time,
      draw: Option<Duration>): FailureState {
    if st.cooldownUntil.Some? && st.cooldownUntil.value > now then
      if retryAfter > st.cooldownUntil.value - now then st.(cooldownUntil := Some(now + retryAfter)) else st
    else
      var n := st.consecutive + 1;
      var cooldown := CooldownOf(cfg, n, draw);
      var wait := if retryAfter > cooldown then retryAfter else cooldown;
      FailureState(n, if wait <= 0 then None else Some(now + wait))
  }

  predicate Active(st: FailureState, now: Time) {
    st.cooldownUntil.Some? && st.cooldownUntil.value > now
  }

  /** Failures during an active cooldown never shorten it and never raise the streak;
      a failure outside one adds exactly one to the streak and, from the threshold on,
      cools down for at least the law's duration exactly if the jitter does not wrap or
      the answer asked for a longer wait. */
  lemma FailureNeverShortens(cfg: Config, st: FailureState, retryAfter: Duration, now: Time, draw: Option<Duration>)
    requires cfg.Valid() && ValidDraw(cfg, st.consecutive + 1, draw)
    ensures var r := NextFailureState(cfg, st, retryAfter, now, draw);
            && (Active(st, now) ==>
                  && r.consecutive == st.consecutive
                  && Active(r, now) && r.cooldownUntil.value >= st.cooldownUntil.value
                  && r.cooldownUntil.value >= now + retryAfter)
            && (!Active(st, now) ==>
                  && r.consecutive == st.consecutive + 1
                  && (r.cooldownUntil.Some? ==> Active(r, now))
                  && (retryAfter > 0 ==> Active(r, now) && r.cooldownUntil.value >= now + retryAfter)
                  && (r.consecutive >= cfg.threshold ==>
                        (Active(r, now) && r.cooldownUntil.value >= now + Law(cfg, r.consecutive)
                         <==> draw.None? || Law(cfg, r.consecutive) + draw.value <= MAX_INT64
                              || retryAfter >= Law(cfg, r.consecutive))))
  {
    var n := st.consecutive + 1;
    LawIsMonotone(cfg, n, n);
    if n >= cfg.threshold && draw.Some? {
      JitterStaysInRange(cfg, n, draw.value);
    }
  }

  /** A failure, when it happens and the wait it asks for. */
  datatype Failure = Failure(at: Time, retryAfter: Duration)

  function ManyFailures(cfg: Config, st: FailureState, failures: seq<Failure>): FailureState
    decreases failures
  {
    if failures == [] then st
    else ManyFailures(cfg, NextFailureState(cfg, st, failures[0].retryAfter, failures[0].at, None), failures[1..])
  }

  /** Each failure falls into the cooldown that the ones before it have left running. */
  predicate WithinCooldown(cfg: Config, st: FailureState, failures: seq<Failure>)
    decreases failures
  {
    failures == [] || (
      && Active(st, failures[0].at)
      && WithinCooldown(cfg, NextFailureState(cfg, st, failures[0].retryAfter, failures[0].at, None), failures[1..]))
  }

  /** Failures before the deadline that is running when the first of them happens are within the cooldown. */
  lemma {:induction false} BeforeDeadlineIsWithin(cfg: Config, st: FailureState, failures: seq<Failure>)
    requires forall i :: 0 <= i < |failures| ==> Active(st, failures[i].at)
    ensures WithinCooldown(cfg, st, failures)
    decreases failures
  {
    if failures != [] {
      var next := NextFailureState(cfg, st, failures[0].retryAfter, failures[0].at, None);
      forall i | 0 <= i < |failures[1..]|
        ensures Active(next, failures[1..][i].at)
      {
        assert Active(st, failures[i + 1].at);
      }
      BeforeDeadlineIsWithin(cfg, next, failures[1..]);
    }
  }

  /** Any number of failures within one cooldown, each at its own time, leave the streak alone, never move the
      deadline earlier, and each gets the wait it asked for. */
  lemma {:induction false} BurstCountsOnce(cfg: Config, st: FailureState, failures: seq<Failure>)
    requires st.cooldownUntil.Some? && WithinCooldown(cfg, st, failures)
    ensures var r := ManyFailures(cfg, st, failures);
            && r.consecutive == st.consecutive
            && r.cooldownUntil.Some? && r.cooldownUntil.value >= st.cooldownUntil.value
            && forall i :: 0 <= i < |failures| ==> r.cooldownUntil.value >= failures[i].at + failures[i].retryAfter
    decreases failures
  {
    if failures != [] {
      BurstCountsOnce(cfg, NextFailureState(cfg, st, failures[0].retryAfter, failures[0].at, None), failures[1..]);
    }
  }
}
