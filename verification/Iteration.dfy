/** The numeric sequence of an iterated request: start + step * index in 64-bit arithmetic. */
module Iteration {
  import opened Text

  /** Every operation on this type is checked to stay within 64 bits. */
  newtype int64 = x: int | MIN_INT64 <= x <= MAX_INT64

  const MIN_COUNT := 1
  const MAX_COUNT := 100
  const MAX_DELAY := 3600
  const MAX_STOP_COUNT := 100

  datatype Config = Config(
    enabled: bool,
    path: string,
    start: int64,
    step: int64,
    count: int,
    delay: int,
    unlimited: bool,
    stopCount: int,
    stopMode: string,
    randomMin: int,
    randomMax: int)

  /** Go's integer division, which rounds toward zero. */
  function Quotient(a: int, b: int): int
    requires b > 0
  {
    if a >= 0 then a / b else -((-a) / b)
  }

  // ----- one value -------------------------------------------------------

  /** The value the sequence stands for, without any width. */
  function Exact(start: int64, step: int64, index: nat): int {
    start as int + step as int * index
  }

  /** Neither the product nor the sum leaves 64 bits. */
  predicate Representable(start: int64, step: int64, index: nat) {
    InInt64(step as int * index) && InInt64(Exact(start, step, index))
  }

  lemma QuotientBounds(step: int, index: nat)
    requires index > 0
    ensures step > Quotient(MAX_INT64, index) <==> step * index > MAX_INT64
    ensures step < Quotient(MIN_INT64, index) <==> step * index < MIN_INT64
  {
    QuotientBoundsProduct(step, MAX_INT64, index);
    QuotientBoundsProduct(-step, -MIN_INT64, index);
    assert -step * index == -(step * index);
  }

  lemma QuotientBoundsProduct(step: int, bound: nat, index: nat)
    requires index > 0
    ensures step > bound / index <==> step * index > bound
  {
    var q := bound / index;
    assert bound == q * index + bound % index;
    if step <= q {
      assert step * index <= q * index;
    } else {
      assert step * index >= (q + 1) * index == q * index + index;
    }
  }

  lemma Grows(n: nat, b: nat)
    requires b > 0
    ensures n * b >= n
  {
    assert n * (b - 1) >= 0;
  }

  lemma QuotientInRange(a: int, b: int)
    requires b > 0 && InInt64(a)
    ensures InInt64(Quotient(a, b))
  {
    var m := if a >= 0 then a else -a;
    Grows(m + 1, b);
    QuotientBoundsProduct(m + 1, m, b);
  }

  /** The checked computation: it fails exactly if the product or the sum
      does not fit, and no intermediate result overflows. */
  method Value(start: int64, step: int64, index: int64) returns (r: Option<int64>)
    requires index >= 0
    ensures Representable(start, step, index as int) ==> r == Some(Exact(start, step, index as int) as int64)
    ensures !Representable(start, step, index as int) ==> r == None
  {
    if index != 0 {
      QuotientBounds(step as int, index as int);
      QuotientInRange(MAX_INT64, index as int);
      QuotientInRange(MIN_INT64, index as int);
      if step > Quotient(MAX_INT64, index as int) as int64 || step < Quotient(MIN_INT64, index as int) as int64 {
        return None;
      }
    }
    var delta := step * index;
    if delta > 0 && start > MAX_INT64 as int64 - delta {
      return None;
    }
    if delta < 0 && start < MIN_INT64 as int64 - delta {
      return None;
    }
    return Some(start + delta);
  }

  lemma Between(step: int, smaller: nat, index: nat)
    requires smaller <= index
    ensures 0 <= step * smaller <= step * index || step * index <= step * smaller <= 0
  {
    if step >= 0 {
      assert step * (index - smaller) >= 0;
      assert step * smaller >= 0;
    } else {
      assert step * (index - smaller) <= 0;
      assert step * smaller <= 0;
    }
  }

  /** Once an index can be represented, all smaller ones can. */
  lemma SmallerIndexesSucceed(start: int64, step: int64, smaller: nat, index: nat)
    requires smaller <= index && Representable(start, step, index)
    ensures Representable(start, step, smaller)
  {
    Between(step as int, smaller, index);
  }

  // ----- values of a configuration ----------------------------------------

  predicate InRange(config: Config, index: nat) {
    if !config.enabled then index == 0
    else config.unlimited || (index < config.count && MIN_COUNT <= config.count <= MAX_COUNT)
  }

  function ValueOf(config: Config, index: nat): Option<int> {
    if InRange(config, index) && Representable(config.start, config.step, index)
    then Some(Exact(config.start, config.step, index)) else None
  }

  method IterationValue(config: Config, index: int64) returns (r: Option<int64>)
    ensures index < 0 ==> r == None
    ensures index >= 0 ==> r.Some? == ValueOf(config, index as int).Some?
    ensures r.Some? ==> index >= 0 && r.value as int == Exact(config.start, config.step, index as int)
  {
    if index < 0 {
      return None;
    }
    if !config.enabled {
      if index != 0 {
        return None;
      }
    } else if !config.unlimited
              && (index as int >= config.count || config.count < MIN_COUNT || config.count > MAX_COUNT) {
      return None;
    }
    r := Value(config.start, config.step, index);
  }

  /** How many values a materialised sequence has; none if it cannot be materialised. */
  function Length(config: Config): Option<nat> {
    if !config.enabled then Some(1)
    else if config.unlimited || config.count < MIN_COUNT || config.count > MAX_COUNT then None
    else Some(config.count)
  }

  /** The whole sequence; it exists exactly if its last value does. */
  method IterationValues(config: Config) returns (r: Option<seq<int64>>)
    ensures r.Some? <==> Length(config).Some? && Representable(config.start, config.step, Length(config).value - 1)
    ensures r.Some? ==> |r.value| == Length(config).value
    ensures r.Some? ==> forall i :: 0 <= i < |r.value| ==> r.value[i] as int == Exact(config.start, config.step, i)
  {
    if Length(config).None? {
      return None;
    }
    var count := Length(config).value;
    var values: seq<int64> := [];
    for index := 0 to count
      invariant |values| == index
      invariant index > 0 ==> Representable(config.start, config.step, index - 1)
      invariant forall i :: 0 <= i < index ==> values[i] as int == Exact(config.start, config.step, i)
    {
      var value := IterationValue(config, index as int64);
      if value.None? {
        if Representable(config.start, config.step, count - 1) {
          SmallerIndexesSucceed(config.start, config.step, index, count - 1);
          assert false;
        }
        return None;
      }
      values := values + [value.value];
    }
    return Some(values);
  }

  // ----- validation --------------------------------------------------------

  function StopMode(mode: string): string {
    var normalized := ToLower(TrimSpace(mode));
    if normalized == "" then "normal" else normalized
  }

  /** The numeric limits; the target of the value is judged by the request. */
  predicate WithinLimits(config: Config) {
    && MIN_COUNT <= config.count <= MAX_COUNT
    && 0 <= config.delay <= MAX_DELAY
    && 0 <= config.stopCount <= MAX_STOP_COUNT
    && (StopMode(config.stopMode) == "normal" || StopMode(config.stopMode) == "strict")
    && (config.unlimited ==> config.stopCount >= 1)
    && -MAX_DELAY <= config.randomMin <= config.randomMax <= MAX_DELAY
    && TrimSpace(config.path) != ""
  }

  /** Validation; targetFits says whether the base request can carry the value. */
  method Validate(config: Config, targetFits: bool) returns (ok: bool)
    ensures ok <==> Accepted(config, targetFits)
  {
    if !config.enabled {
      return true;
    }
    if !WithinLimits(config) || !targetFits {
      return false;
    }
    if config.unlimited {
      var first := IterationValue(config, 0);
      return first.Some?;
    }
    var values := IterationValues(config);
    return values.Some?;
  }

  predicate Accepted(config: Config, targetFits: bool) {
    config.enabled ==>
      && WithinLimits(config)
      && targetFits
      && (config.unlimited || Representable(config.start, config.step, config.count - 1))
  }

  /** An enabled configuration is accepted exactly if its numbers are within the documented bounds, its mode is known,
      it has a place for the value, an unlimited one can stop, and a limited one can represent all its values. */
  lemma AcceptedExactly(config: Config, targetFits: bool)
    requires config.enabled
    ensures Accepted(config, targetFits) <==>
      && 1 <= config.count <= 100 && 0 <= config.delay <= 3600 && 0 <= config.stopCount <= 100
      && -3600 <= config.randomMin <= config.randomMax <= 3600
      && ToLower(TrimSpace(config.stopMode)) in {"", "normal", "strict"}
      && (config.unlimited ==> config.stopCount > 0)
      && TrimSpace(config.path) != "" && targetFits
      && (!config.unlimited ==> forall i: nat :: i < config.count ==> Representable(config.start, config.step, i))
  {
    if Accepted(config, targetFits) && !config.unlimited {
      forall i: nat | i < config.count ensures Representable(config.start, config.step, i) {
        SmallerIndexesSucceed(config.start, config.step, i, config.count - 1);
      }
    }
  }

  /** An accepted finite sequence never overflows while it runs. */
  lemma AcceptedSequenceIsTotal(config: Config, targetFits: bool, index: nat)
    requires Accepted(config, targetFits) && !(config.enabled && config.unlimited)
    ensures InRange(config, index) ==> ValueOf(config, index).Some?
  {
    if config.enabled && InRange(config, index) {
      SmallerIndexesSucceed(config.start, config.step, index, config.count - 1);
    }
  }
}
