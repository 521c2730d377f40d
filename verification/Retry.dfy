/** Retry strategies, and the loop that follows them. Delays are exact seconds. */
module Retry {
  import opened Types

  // The first argument is the number of failed attempts.
  type RetryIndicator = (nat, Status) -> bool
  type DelayCalculator = nat -> real
  type RetryStrategy = (nat, Status) -> Option<real>

  function CreateRetryStrategy(indicator: RetryIndicator, delay: DelayCalculator): RetryStrategy {
    (failed: nat, status: Status) => if indicator(failed, status) then Some(delay(failed)) else None
  }

  function LimitedRetryIndicator(maxAttempts: int): RetryIndicator {
    (failed: nat, status: Status) => failed < maxAttempts
  }

  function UnlimitedRetryIndicator(unrecoverable: set<int>): RetryIndicator {
    (failed: nat, status: Status) => status.code !in unrecoverable
  }

  function Power(x: real, n: nat): real {
    if n == 0 then 1.0 else x * Power(x, n - 1)
  }

  /** The power before the n-th; there is none before the first of zero. */
  function PowerBefore(x: real, n: nat): real {
    if n > 0 then Power(x, n - 1) else if x == 0.0 then 0.0 else 1.0 / x
  }

  function BackoffDelay(minDelay: real, factor: real): DelayCalculator {
    (failed: nat) => PowerBefore(factor, failed) * minDelay
  }

  function ConstantDelay(delay: real): DelayCalculator {
    (failed: nat) => delay
  }

  function LimitedBackoffStrategy(minDelay: real, factor: real, maxAttempts: int): RetryStrategy {
    CreateRetryStrategy(LimitedRetryIndicator(maxAttempts), BackoffDelay(minDelay, factor))
  }

  function UnlimitedConstantDelayStrategy(delay: real, unrecoverable: set<int>): RetryStrategy {
    CreateRetryStrategy(UnlimitedRetryIndicator(unrecoverable), ConstantDelay(delay))
  }

  // ---------------------------------------------------------------- what the loop does

  /** After attempt `i`, with the status `outcomes(i)`, there is another one. */
  predicate Continues(strategy: Option<RetryStrategy>, outcomes: nat -> Status, i: nat) {
    !outcomes(i).Ok() && strategy.Some? && strategy.value(i + 1, outcomes(i)).Some?
  }

  /** Attempt `last` is the last one. */
  ghost predicate StopsAt(strategy: Option<RetryStrategy>, outcomes: nat -> Status, last: nat) {
    (forall i: nat :: i < last ==> Continues(strategy, outcomes, i)) && !Continues(strategy, outcomes, last)
  }

  datatype Action = Attempt(index: nat) | Sleep(delay: real) | Reset

  /** The attempts up to `last`; between two of them one sleep and then one reset. */
  ghost function Actions(strategy: Option<RetryStrategy>, outcomes: nat -> Status, last: nat, resets: bool): seq<Action>
    requires forall i: nat :: i < last ==> Continues(strategy, outcomes, i)
  {
    if last == 0 then [Attempt(0)]
    else
      assert Continues(strategy, outcomes, last - 1);
      Actions(strategy, outcomes, last - 1, resets)
      + [Sleep(strategy.value(last, outcomes(last - 1)).value)]
      + (if resets then [Reset] else [])
      + [Attempt(last)]
  }

  /** The loop, observed up to attempt `horizon`: it has ended with attempt `last` and reports whether
      that one succeeded, or it is still retrying. Runs that never end are covered by all horizons. */
  method RetryWithStrategy(strategy: Option<RetryStrategy>, outcomes: nat -> Status, resets: bool, horizon: nat)
    returns (result: Option<bool>, actions: seq<Action>, last: nat)
    ensures last <= horizon && forall i: nat :: i < last ==> Continues(strategy, outcomes, i)
    ensures actions == Actions(strategy, outcomes, last, resets)
    ensures result.Some? ==> StopsAt(strategy, outcomes, last) && (result.value <==> outcomes(last).Ok())
    ensures result.None? ==> last == horizon && Continues(strategy, outcomes, last)
  {
    var failedAttempts := 0;
    actions, last := [Attempt(0)], 0;
    while true
      invariant last == failedAttempts <= horizon
      invariant forall i: nat :: i < failedAttempts ==> Continues(strategy, outcomes, i)
      invariant actions == Actions(strategy, outcomes, failedAttempts, resets)
      decreases horizon - failedAttempts
    {
      var status := outcomes(failedAttempts);
      if status.Ok() {
        return Some(true), actions, last;
      }
      if strategy.None? {
        return Some(false), actions, last;
      }
      var delay := strategy.value(failedAttempts + 1, status);
      if delay.None? {
        break;
      }
      if failedAttempts == horizon {
        return None, actions, last;
      }
      failedAttempts := failedAttempts + 1;
      actions := actions + [Sleep(delay.value)];
      if resets {
        actions := actions + [Reset];
      }
      actions := actions + [Attempt(failedAttempts)];
      last := failedAttempts;
    }
    result := Some(false);
  }

  /** With resets, a run is attempt, sleep, reset, attempt, and so on. */
  lemma {:induction false} ActionsAt(strategy: Option<RetryStrategy>, outcomes: nat -> Status, last: nat, i: nat)
    requires forall j: nat :: j < last ==> Continues(strategy, outcomes, j)
    ensures |Actions(strategy, outcomes, last, true)| == 3 * last + 1
    ensures i <= 3 * last ==>
              var action := Actions(strategy, outcomes, last, true)[i];
              if i % 3 == 0 then action == Attempt(i / 3) else if i % 3 == 1 then action.Sleep? else action == Reset
  {
    if last > 0 {
      ActionsAt(strategy, outcomes, last - 1, i);
    }
  }

  /** Without resets it is attempt, sleep, attempt, and so on. */
  lemma {:induction false} ActionsWithoutResets(strategy: Option<RetryStrategy>, outcomes: nat -> Status, last: nat,
                                                i: nat)
    requires forall j: nat :: j < last ==> Continues(strategy, outcomes, j)
    ensures |Actions(strategy, outcomes, last, false)| == 2 * last + 1
    ensures i <= 2 * last ==>
              var action := Actions(strategy, outcomes, last, false)[i];
              if i % 2 == 0 then action == Attempt(i / 2) else action.Sleep?
  {
    if last > 0 {
      ActionsWithoutResets(strategy, outcomes, last - 1, i);
    }
  }

  // ---------------------------------------------------------------- when it ends

  lemma FirstStop(strategy: Option<RetryStrategy>, outcomes: nat -> Status, i: nat) returns (last: nat)
    requires !Continues(strategy, outcomes, i)
    ensures last <= i && StopsAt(strategy, outcomes, last)
  {
    last := 0;
    while Continues(strategy, outcomes, last)
      invariant last <= i && forall j: nat :: j < last ==> Continues(strategy, outcomes, j)
      decreases i - last
    {
      last := last + 1;
    }
  }

  function Max(a: int, b: int): int {
    if a < b then b else a
  }

  /** Limited backoff ends for every behaviour of the operation, after at most max(1, max_attempts)
      attempts, and after exactly that many if none succeeds. */
  lemma LimitedBackoffEnds(minDelay: real, factor: real, maxAttempts: int, outcomes: nat -> Status) returns (last: nat)
    ensures StopsAt(Some(LimitedBackoffStrategy(minDelay, factor, maxAttempts)), outcomes, last)
    ensures last + 1 <= Max(1, maxAttempts)
    ensures last + 1 == Max(1, maxAttempts) || outcomes(last).Ok()
  {
    var s := LimitedBackoffStrategy(minDelay, factor, maxAttempts);
    var bound: nat := Max(1, maxAttempts) - 1;
    assert s(bound + 1, outcomes(bound)).None?;
    last := FirstStop(Some(s), outcomes, bound);
    if last < bound {
      assert s(last + 1, outcomes(last)).Some?;
    }
  }

  /** Unlimited retries end if and only if some attempt succeeds or fails unrecoverably. */
  lemma UnlimitedEnds(delay: real, unrecoverable: set<int>, outcomes: nat -> Status)
    ensures (exists last :: StopsAt(Some(UnlimitedConstantDelayStrategy(delay, unrecoverable)), outcomes, last)) <==>
            (exists i: nat :: outcomes(i).Ok() || outcomes(i).code in unrecoverable)
  {
    var s := UnlimitedConstantDelayStrategy(delay, unrecoverable);
    if last: nat :| StopsAt(Some(s), outcomes, last) {
      assert outcomes(last).Ok() || s(last + 1, outcomes(last)).None?;
    }
    if i: nat :| outcomes(i).Ok() || outcomes(i).code in unrecoverable {
      assert outcomes(i).Ok() || s(i + 1, outcomes(i)).None?;
      var last := FirstStop(Some(s), outcomes, i);
    }
  }

  // ---------------------------------------------------------------- how long it sleeps

  function Sleeps(actions: seq<Action>): seq<real> {
    if actions == [] then []
    else
      var a := actions[|actions|-1];
      Sleeps(actions[..|actions|-1]) + if a.Sleep? then [a.delay] else []
  }

  lemma SleepsAppend(actions: seq<Action>, a: Action)
    ensures Sleeps(actions + [a]) == Sleeps(actions) + if a.Sleep? then [a.delay] else []
  {
    assert (actions + [a])[..|actions|] == actions;
  }

  function Total(delays: seq<real>): real {
    if delays == [] then 0.0 else Total(delays[..|delays|-1]) + delays[|delays|-1]
  }

  /** min_delay, min_delay * factor, and so on. */
  function Geometric(minDelay: real, factor: real, count: nat): (delays: seq<real>)
    ensures |delays| == count
  {
    if count == 0 then []
    else Geometric(minDelay, factor, count - 1) + [Power(factor, count - 1) * minDelay]
  }

  lemma {:induction false} GeometricTerm(minDelay: real, factor: real, count: nat, i: nat)
    requires i < count
    ensures Geometric(minDelay, factor, count)[i] == Power(factor, i) * minDelay
  {
    if i < count - 1 {
      GeometricTerm(minDelay, factor, count - 1, i);
    }
  }

  lemma TotalAppend(delays: seq<real>, d: real)
    ensures Total(delays + [d]) == Total(delays) + d
  {
    assert (delays + [d])[..|delays|] == delays;
  }

  lemma BackoffValue(minDelay: real, factor: real, maxAttempts: int, failed: nat, status: Status)
    requires failed > 0 && LimitedBackoffStrategy(minDelay, factor, maxAttempts)(failed, status).Some?
    ensures LimitedBackoffStrategy(minDelay, factor, maxAttempts)(failed, status).value
         == Power(factor, failed - 1) * minDelay
  {
  }

  lemma ActionsSleeps(s: RetryStrategy, outcomes: nat -> Status, last: nat, resets: bool)
    requires last > 0 && forall i: nat :: i < last ==> Continues(Some(s), outcomes, i)
    ensures s(last, outcomes(last - 1)).Some?
    ensures Sleeps(Actions(Some(s), outcomes, last, resets))
         == Sleeps(Actions(Some(s), outcomes, last - 1, resets)) + [s(last, outcomes(last - 1)).value]
  {
    assert Continues(Some(s), outcomes, last - 1);
    var before := Actions(Some(s), outcomes, last - 1, resets);
    var slept := before + [Sleep(s(last, outcomes(last - 1)).value)];
    SleepsAppend(before, slept[|before|]);
    if resets {
      SleepsAppend(slept, Reset);
      SleepsAppend(slept + [Reset], Attempt(last));
    } else {
      assert slept + [] == slept;
      SleepsAppend(slept, Attempt(last));
    }
  }

  /** For any strategy, the loop sleeps the delays the strategy named, in order. */
  lemma {:induction false} SleepsAsTold(s: RetryStrategy, outcomes: nat -> Status, last: nat, resets: bool,
                                        delays: seq<real>)
    requires |delays| == last && forall i: nat :: i < last ==> Continues(Some(s), outcomes, i)
    requires forall i: nat :: i < last ==> s(i + 1, outcomes(i)) == Some(delays[i])
    ensures Sleeps(Actions(Some(s), outcomes, last, resets)) == delays
  {
    if last == 0 {
      SleepsAppend([], Attempt(0));
      assert [] + [Attempt(0)] == [Attempt(0)];
    } else {
      SleepsAsTold(s, outcomes, last - 1, resets, delays[..last - 1]);
      ActionsSleeps(s, outcomes, last, resets);
      assert s(last - 1 + 1, outcomes(last - 1)) == Some(delays[last - 1]);
    }
  }

  /** Each delay is the one before it times the factor, and the first is min_delay. */
  lemma BackoffGrows(minDelay: real, factor: real, failed: nat)
    requires factor != 0.0
    ensures BackoffDelay(minDelay, factor)(1) == minDelay
    ensures BackoffDelay(minDelay, factor)(failed + 1) == factor * BackoffDelay(minDelay, factor)(failed)
  {
    if failed > 0 {
      assert Power(factor, failed) == factor * Power(factor, failed - 1);
      assert factor * Power(factor, failed - 1) * minDelay == factor * (Power(factor, failed - 1) * minDelay);
    } else {
      assert factor * (1.0 / factor * minDelay) == minDelay;
    }
  }

  lemma {:induction false} TotalOfEqual(delays: seq<real>, delay: real)
    requires forall i :: 0 <= i < |delays| ==> delays[i] == delay
    ensures Total(delays) == |delays| as real * delay
  {
    if delays != [] {
      TotalOfEqual(delays[..|delays|-1], delay);
      assert (|delays| - 1) as real * delay + delay == |delays| as real * delay;
    }
  }

  lemma UnlimitedSeries(delay: real, unrecoverable: set<int>, outcomes: nat -> Status, last: nat, resets: bool)
    requires var s := UnlimitedConstantDelayStrategy(delay, unrecoverable);
             forall i: nat :: i < last ==> Continues(Some(s), outcomes, i)
    ensures var sleeps := Sleeps(Actions(Some(UnlimitedConstantDelayStrategy(delay, unrecoverable)),
                                         outcomes, last, resets));
            |sleeps| == last && forall i :: 0 <= i < last ==> sleeps[i] == delay
  {
    var s, delays := UnlimitedConstantDelayStrategy(delay, unrecoverable), seq(last, _ => delay);
    forall i: nat | i < last ensures s(i + 1, outcomes(i)) == Some(delays[i]) {
      assert Continues(Some(s), outcomes, i);
      var d := s(i + 1, outcomes(i));
      assert d.value == delay && d == Some(d.value);
    }
    SleepsAsTold(s, outcomes, last, resets, delays);
  }

  /** Unlimited retries sleep the given delay before each further attempt. */
  lemma UnlimitedSleeps(delay: real, unrecoverable: set<int>, outcomes: nat -> Status, last: nat, resets: bool)
    requires var s := UnlimitedConstantDelayStrategy(delay, unrecoverable);
             forall i: nat :: i < last ==> Continues(Some(s), outcomes, i)
    ensures var sleeps := Sleeps(Actions(Some(UnlimitedConstantDelayStrategy(delay, unrecoverable)),
                                         outcomes, last, resets));
            && |sleeps| == last && (forall i :: 0 <= i < last ==> sleeps[i] == delay)
            && Total(sleeps) == last as real * delay
  {
    UnlimitedSeries(delay, unrecoverable, outcomes, last, resets);
    TotalOfEqual(Sleeps(Actions(Some(UnlimitedConstantDelayStrategy(delay, unrecoverable)), outcomes, last, resets)),
                 delay);
  }

  lemma BackoffSeries(minDelay: real, factor: real, maxAttempts: int, outcomes: nat -> Status, last: nat, resets: bool)
    requires var s := LimitedBackoffStrategy(minDelay, factor, maxAttempts);
             forall i: nat :: i < last ==> Continues(Some(s), outcomes, i)
    ensures Sleeps(Actions(Some(LimitedBackoffStrategy(minDelay, factor, maxAttempts)), outcomes, last, resets))
         == Geometric(minDelay, factor, last)
  {
    var s, g := LimitedBackoffStrategy(minDelay, factor, maxAttempts), Geometric(minDelay, factor, last);
    forall i: nat | i < last ensures s(i + 1, outcomes(i)) == Some(g[i]) {
      assert Continues(Some(s), outcomes, i);
      GeometricTerm(minDelay, factor, last, i);
      BackoffValue(minDelay, factor, maxAttempts, i + 1, outcomes(i));
      var d := s(i + 1, outcomes(i));
      assert d.value == Power(factor, i) * minDelay == g[i];
      assert d == Some(d.value);
    }
    SleepsAsTold(s, outcomes, last, resets, g);
  }

  /** The i-th sleep of limited backoff is min_delay times factor to the (i-1). */
  lemma BackoffSleeps(minDelay: real, factor: real, maxAttempts: int, outcomes: nat -> Status, last: nat, resets: bool)
    requires var s := LimitedBackoffStrategy(minDelay, factor, maxAttempts);
             forall i: nat :: i < last ==> Continues(Some(s), outcomes, i)
    ensures var strategy := Some(LimitedBackoffStrategy(minDelay, factor, maxAttempts));
            var sleeps := Sleeps(Actions(strategy, outcomes, last, resets));
            |sleeps| == last && forall i :: 0 <= i < last ==> sleeps[i] == Power(factor, i) * minDelay
  {
    BackoffSeries(minDelay, factor, maxAttempts, outcomes, last, resets);
    forall i | 0 <= i < last
      ensures Geometric(minDelay, factor, last)[i] == Power(factor, i) * minDelay
    {
      GeometricTerm(minDelay, factor, last, i);
    }
  }

  /** The total of a series with `p` as its next power of the factor `f`. */
  ghost predicate IsSum(total: real, p: real, f: real, m: real) {
    total * (f - 1.0) == m * (p - 1.0)
  }

  lemma NextTotal(minDelay: real, factor: real, count: nat)
    requires count > 0
    ensures Total(Geometric(minDelay, factor, count))
         == Total(Geometric(minDelay, factor, count - 1)) + Power(factor, count - 1) * minDelay
  {
    TotalAppend(Geometric(minDelay, factor, count - 1), Power(factor, count - 1) * minDelay);
  }

  lemma TotalStep(minDelay: real, factor: real, count: nat)
    requires count > 0
    requires IsSum(Total(Geometric(minDelay, factor, count - 1)), Power(factor, count - 1), factor, minDelay)
    ensures IsSum(Total(Geometric(minDelay, factor, count)), Power(factor, count), factor, minDelay)
  {
    var t, p := Total(Geometric(minDelay, factor, count - 1)), Power(factor, count - 1);
    var t', p' := Total(Geometric(minDelay, factor, count)), Power(factor, count);
    NextTotal(minDelay, factor, count);
    Telescope(t, p, t', p', factor, minDelay);
  }

  /** The geometric sum. */
  lemma {:induction false} GeometricTotal(minDelay: real, factor: real, count: nat)
    ensures IsSum(Total(Geometric(minDelay, factor, count)), Power(factor, count), factor, minDelay)
  {
    if count > 0 {
      GeometricTotal(minDelay, factor, count - 1);
      TotalStep(minDelay, factor, count);
    }
  }

  lemma Telescope(t: real, p: real, t': real, p': real, f: real, m: real)
    requires IsSum(t, p, f, m) && t' == t + p * m && p' == f * p
    ensures IsSum(t', p', f, m)
  {
    assert (t + p * m) * (f - 1.0) == t * (f - 1.0) + p * m * (f - 1.0);
    assert m * (p - 1.0) + p * m * (f - 1.0) == m * (f * p - 1.0);
  }

  lemma {:induction false} PowerNonNegative(x: real, n: nat)
    requires x >= 0.0
    ensures Power(x, n) >= 0.0
  {
    if n > 0 {
      PowerNonNegative(x, n - 1);
    }
  }

  lemma {:induction false} GeometricMonotone(minDelay: real, factor: real, count: nat, bound: nat)
    requires minDelay >= 0.0 && factor >= 0.0 && count <= bound
    ensures Total(Geometric(minDelay, factor, count)) <= Total(Geometric(minDelay, factor, bound))
  {
    if count < bound {
      GeometricMonotone(minDelay, factor, count, bound - 1);
      PowerNonNegative(factor, bound - 1);
      TotalAppend(Geometric(minDelay, factor, bound - 1), Power(factor, bound - 1) * minDelay);
    }
  }

  /** Whatever the operation does, limited backoff sleeps no longer than the whole series. */
  lemma TotalSleepBounded(minDelay: real, factor: real, maxAttempts: int, outcomes: nat -> Status, last: nat,
                          resets: bool)
    requires minDelay >= 0.0 && factor >= 0.0
    requires var s := LimitedBackoffStrategy(minDelay, factor, maxAttempts);
             forall i: nat :: i < last ==> Continues(Some(s), outcomes, i)
    ensures Total(Sleeps(Actions(Some(LimitedBackoffStrategy(minDelay, factor, maxAttempts)), outcomes, last, resets)))
         <= Total(Geometric(minDelay, factor, Max(1, maxAttempts) - 1))
  {
    var s := LimitedBackoffStrategy(minDelay, factor, maxAttempts);
    BackoffSeries(minDelay, factor, maxAttempts, outcomes, last, resets);
    if last > 0 {
      assert Continues(Some(s), outcomes, last - 1);
    }
    GeometricMonotone(minDelay, factor, last, Max(1, maxAttempts) - 1);
  }

  /** The documented example: 100 ms, factor 2, five attempts. */
  lemma DocumentedExample(outcomes: nat -> Status, last: nat)
    requires forall i :: !outcomes(i).Ok()
    requires StopsAt(Some(LimitedBackoffStrategy(0.1, 2.0, 5)), outcomes, last)
    ensures last + 1 == 5
    ensures Sleeps(Actions(Some(LimitedBackoffStrategy(0.1, 2.0, 5)), outcomes, last, true)) == [0.1, 0.2, 0.4, 0.8]
  {
    var s := LimitedBackoffStrategy(0.1, 2.0, 5);
    assert !Continues(Some(s), outcomes, last);
    assert s(last + 1, outcomes(last)).None?;
    assert last > 4 ==> Continues(Some(s), outcomes, 4);
    assert s(5, outcomes(4)).None?;
    BackoffSleeps(0.1, 2.0, 5, outcomes, last, true);
    assert Power(2.0, 0) == 1.0 && Power(2.0, 1) == 2.0;
    assert Power(2.0, 2) == 4.0 && Power(2.0, 3) == 2.0 * Power(2.0, 2);
  }
}
