/**
 * Retry policy resolution: `getRequestOptions` merges the per-request options
 * stored under the namespace key over the defaults given at setup, and the
 * error interceptor's destructuring fills what is still unset with the
 * built-in defaults (3 retries, the idempotent-method classifier, the
 * exponential backoff, no timeout reset).
 */
module RetryOptions {
  import opened Wrappers
  import opened Classifier
  import Backoff

  /** A caller-supplied `retryCondition(error)`. */
  type Condition = ErrorRecord -> bool

  /** A caller-supplied `retryDelay(retryCount, error)`, in milliseconds. */
  type DelayFunction = (nat, ErrorRecord) -> real

  /** An options object: each recognised key may be absent. */
  datatype Options = Options(
    retries: Option<int>,
    retryCondition: Option<Condition>,
    retryDelay: Option<DelayFunction>,
    shouldResetTimeout: Option<bool>)

  /** An options object with none of the recognised keys. */
  const NoOptions: Options := Options(None, None, None, None)

  /**
   * `Object.assign({}, defaults, overrides)` restricted to the recognised keys:
   * a key the request sets wins, any other key keeps the default.
   */
  function Merge(defaults: Options, overrides: Options): (m: Options)
    ensures overrides.retries.Some? ==> m.retries == overrides.retries
    ensures overrides.retries.None? ==> m.retries == defaults.retries
    ensures overrides.retryCondition.Some? ==> m.retryCondition == overrides.retryCondition
    ensures overrides.retryCondition.None? ==> m.retryCondition == defaults.retryCondition
    ensures overrides.retryDelay.Some? ==> m.retryDelay == overrides.retryDelay
    ensures overrides.retryDelay.None? ==> m.retryDelay == defaults.retryDelay
    ensures overrides.shouldResetTimeout.Some? ==> m.shouldResetTimeout == overrides.shouldResetTimeout
    ensures overrides.shouldResetTimeout.None? ==> m.shouldResetTimeout == defaults.shouldResetTimeout
  {
    Options(
      if overrides.retries.Some? then overrides.retries else defaults.retries,
      if overrides.retryCondition.Some? then overrides.retryCondition else defaults.retryCondition,
      if overrides.retryDelay.Some? then overrides.retryDelay else defaults.retryDelay,
      if overrides.shouldResetTimeout.Some? then overrides.shouldResetTimeout else defaults.shouldResetTimeout)
  }

  /** Merging nothing over the defaults gives the defaults; merging twice changes nothing more. */
  lemma MergeLaws(defaults: Options, overrides: Options)
    ensures Merge(defaults, NoOptions) == defaults
    ensures Merge(NoOptions, overrides) == overrides
    ensures Merge(Merge(defaults, overrides), overrides) == Merge(defaults, overrides)
  {
  }

  /** How the delay is computed: the built-in exponential backoff or the caller's function. */
  datatype Delay = Exponential | Custom(delayOf: DelayFunction)

  /** The effective policy for one retry decision, every key resolved. */
  datatype Policy = Policy(retries: int, retryCondition: Condition, retryDelay: Delay, shouldResetTimeout: bool)

  const DefaultRetries: int := 3

  /** The built-in `retryCondition`: the classifier over the idempotent methods. */
  function DefaultCondition(isRetryAllowed: ErrorRecord -> bool): (c: Condition)
    ensures forall e :: c(e) == Transient(IdempotentHttpMethods, e)
  {
    e => IsRetryableError(IdempotentHttpMethods, isRetryAllowed, e)
  }

  /** The destructuring with defaults at the head of the error interceptor. */
  function Resolve(o: Options, isRetryAllowed: ErrorRecord -> bool): (p: Policy)
    ensures o.retries.Some? ==> p.retries == o.retries.value
    ensures o.retries.None? ==> p.retries == DefaultRetries
    ensures o.retryCondition.Some? ==> p.retryCondition == o.retryCondition.value
    ensures o.retryCondition.None? ==> forall e :: p.retryCondition(e) == Transient(IdempotentHttpMethods, e)
    ensures o.retryDelay.Some? ==> p.retryDelay == Custom(o.retryDelay.value)
    ensures o.retryDelay.None? ==> p.retryDelay == Exponential
    ensures p.shouldResetTimeout == (o.shouldResetTimeout == Some(true))
  {
    Policy(
      o.retries.GetOr(DefaultRetries),
      o.retryCondition.GetOr(DefaultCondition(isRetryAllowed)),
      if o.retryDelay.Some? then Custom(o.retryDelay.value) else Exponential,
      o.shouldResetTimeout.GetOr(false))
  }

  /** `retryDelay(retryNumber, error)` under the policy; `random` stands for `Math.random()`. */
  function DelayFor(p: Policy, retryNumber: nat, e: ErrorRecord, random: real): (d: real)
    requires 0.0 <= random < 1.0
    ensures p.retryDelay.Exponential? ==>
      Backoff.Base(retryNumber) as real <= d < Backoff.Base(retryNumber) as real * 1.2
    ensures p.retryDelay.Custom? ==> d == p.retryDelay.delayOf(retryNumber, e)
  {
    match p.retryDelay
    case Exponential => Backoff.ExponentialDelay(retryNumber, random)
    case Custom(f) => f(retryNumber, e)
  }
}
