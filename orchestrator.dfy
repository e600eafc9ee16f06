/**
 * Retry orchestrator: the body of the error interceptor as one transition
 * (reject, or revise the request and schedule its resend after a delay), the
 * retry decision it takes, and what a chain of consecutive failures of one
 * logical request does to the retry budget.
 */
module Orchestrator {
  import opened Wrappers
  import opened Classifier
  import opened RetryOptions
  import opened Reviser
  import opened StateTracker

  /** The error the client hands to the interceptor; `config` is the live descriptor, or null. */
  datatype HttpError = HttpError(config: Config?, response: Option<Response>, code: Option<string>)

  /** What the retry condition and the delay function see of an error. */
  function Record(e: HttpError): (r: ErrorRecord)
    reads e.config
    ensures r.config.Some? <==> e.config != null
    ensures e.config != null ==> r.config.value.httpMethod == e.config.httpMethod
  {
    ErrorRecord(if e.config == null then None else Some(e.config.Request()), e.response, e.code)
  }

  /**
   * The interceptor's result: the original error rejected, or the revised descriptor
   * to be sent again after `delay` milliseconds.
   */
  datatype Outcome = Reject(error: HttpError) | Retry(config: Config, delay: real)

  /** The decision on one failure: give up, or retry as retry number `retryNumber`. */
  datatype Decision = GiveUp | RetryAs(retryNumber: nat)

  /**
   * `retryCondition(error) && retryCount < retries`, and on a retry the count after
   * `retryCount += 1`, which therefore never passes the budget.
   */
  function Decide(retryCount: nat, retries: int, conditionHolds: bool): (d: Decision)
    ensures d.RetryAs? <==> conditionHolds && retryCount < retries
    ensures d.RetryAs? ==> d.retryNumber == retryCount + 1 && d.retryNumber <= retries
  {
    if conditionHolds && retryCount < retries then RetryAs(retryCount + 1) else GiveUp
  }

  /** The objects the interceptor may change: the descriptor and the object under its namespace key. */
  function Footprint(c: Config?): set<object>
    reads c
  {
    if c == null then {} else if c.slot == null then {c} else {c, c.slot}
  }

  /**
   * The error interceptor. `now` stands for `Date.now()`, `random` for `Math.random()`,
   * `isRetryAllowed` for the external library's verdict.
   */
  method OnError(client: ClientDefaults, defaults: Options, isRetryAllowed: ErrorRecord -> bool,
                 error: HttpError, now: int, random: real) returns (o: Outcome)
    requires 0.0 <= random < 1.0
    modifies Footprint(error.config)
    ensures error.config == null ==> o == Reject(error)
    ensures error.config != null ==>
      var c := error.config;
      var policy := Resolve(old(c.RequestOptions(defaults)), isRetryAllowed);
      var record := old(Record(error));
      var decision := Decide(old(c.RetryCount()), policy.retries, policy.retryCondition(record));
      && c.slot != null
      && (old(c.slot) != null ==> c.slot == old(c.slot))
      && (old(c.slot) == null ==> fresh(c.slot))
      && c.Overrides() == old(c.Overrides())
      && c.LastRequestTime() == old(c.LastRequestTime())
      && (decision.GiveUp? ==>
            && o == Reject(error)
            && c.RetryCount() == old(c.RetryCount())
            && c.Value() == old(c.Value()))
      && (decision.RetryAs? ==>
            && o == Retry(c, DelayFor(policy, decision.retryNumber, record, random))
            && c.RetryCount() == decision.retryNumber
            && c.Value() == Revise(old(c.Value()), client, policy.shouldResetTimeout,
                                   old(c.LastRequestTime()), now, o.delay))
  {
    var c := error.config;
    if c == null {
      return Reject(error);
    }
    var policy := Resolve(c.RequestOptions(defaults), isRetryAllowed);
    var record := Record(error);
    ghost var before := c.Value();
    var state := c.GetCurrentState();
    var shouldRetry := policy.retryCondition(record) && state.retryCount.value < policy.retries;
    if shouldRetry {
      state.retryCount := Some(state.retryCount.value + 1);
      var delay := DelayFor(policy, state.retryCount.value, record, random);
      c.FixConfig(client);
      if !policy.shouldResetTimeout && c.timeout != 0.0 && state.lastRequestTime != 0 {
        var lastRequestDuration := now - state.lastRequestTime;
        c.timeout := RebudgetedTimeout(c.timeout, lastRequestDuration, delay);
      }
      c.identityTransform := true;
      c.url := NormalizeUrl(c.url, c.baseURL);
      assert c.Value() == Revise(before, client, policy.shouldResetTimeout, state.lastRequestTime, now, delay);
      return Retry(c, delay);
    }
    return Reject(error);
  }

  /** How a chain of consecutive failures of one logical request ends. */
  datatype ChainEnd =
    | Resending(retryCount: nat)                 // every failure so far was retried
    | Propagated(retryCount: nat, failure: nat)  // failure number `failure` (from 0) reached the caller

  /**
   * Feed consecutive failures to the decision, `conditionHolds[i]` being the retry
   * condition's verdict on the i-th one; each retry resends the request, whose next
   * failure is the next element, and the first rejection ends the chain.
   */
  function Chain(retryCount: nat, retries: int, conditionHolds: seq<bool>): (r: ChainEnd)
    ensures r.retryCount >= retryCount
    ensures r.Propagated? ==> r.failure < |conditionHolds|
    decreases |conditionHolds|
  {
    if conditionHolds == [] then
      Resending(retryCount)
    else
      match Decide(retryCount, retries, conditionHolds[0])
      case GiveUp => Propagated(retryCount, 0)
      case RetryAs(n) =>
        match Chain(n, retries, conditionHolds[1..])
        case Resending(k) => Resending(k)
        case Propagated(k, f) => Propagated(k, f + 1)
  }

  /**
   * The retry budget: starting within budget, the count never passes `retries`, never
   * decreases, and counts exactly the resends made.
   */
  lemma {:induction false} ChainWithinBudget(retryCount: nat, retries: int, conditionHolds: seq<bool>)
    requires retryCount <= retries
    ensures retryCount <= Chain(retryCount, retries, conditionHolds).retryCount <= retries
    ensures Chain(retryCount, retries, conditionHolds).Resending? ==>
      Chain(retryCount, retries, conditionHolds).retryCount == retryCount + |conditionHolds|
    ensures Chain(retryCount, retries, conditionHolds).Propagated? ==>
      var end := Chain(retryCount, retries, conditionHolds);
      end.failure < |conditionHolds| && end.retryCount == retryCount + end.failure
    decreases |conditionHolds|
  {
    if conditionHolds != [] && Decide(retryCount, retries, conditionHolds[0]).RetryAs? {
      ChainWithinBudget(retryCount + 1, retries, conditionHolds[1..]);
    }
  }

  /**
   * N consecutive failures that all satisfy the retry condition: with budget left the
   * count becomes retryCount + N; otherwise failure number `retries - retryCount` (the
   * (retries+1)-th overall) is propagated with the count at `retries`.
   */
  lemma {:induction false} QualifyingFailures(retryCount: nat, retries: nat, conditionHolds: seq<bool>)
    requires retryCount <= retries
    requires forall i :: 0 <= i < |conditionHolds| ==> conditionHolds[i]
    ensures Chain(retryCount, retries, conditionHolds) ==
      if retryCount + |conditionHolds| <= retries then Resending(retryCount + |conditionHolds|)
      else Propagated(retries, retries - retryCount)
    decreases |conditionHolds|
  {
    if conditionHolds != [] && retryCount < retries {
      QualifyingFailures(retryCount + 1, retries, conditionHolds[1..]);
    }
  }

  /** From a fresh request, N qualifying failures leave min(N, retries) as the count. */
  lemma CountAfterQualifyingFailures(retries: nat, conditionHolds: seq<bool>)
    requires forall i :: 0 <= i < |conditionHolds| ==> conditionHolds[i]
    ensures Chain(0, retries, conditionHolds).retryCount ==
      if |conditionHolds| <= retries then |conditionHolds| else retries
  {
    QualifyingFailures(0, retries, conditionHolds);
  }

  /**
   * With `retries: 2` and a condition that always holds, three consecutive failures give
   * two resends and then the third failure reaches the caller, the count ending at 2.
   */
  lemma TwoRetriesThenReject()
    ensures Chain(0, 2, [true, true, true]) == Propagated(2, 2)
  {
    QualifyingFailures(0, 2, [true, true, true]);
  }

  /** A failure the retry condition rejects ends the chain at once, whatever the budget. */
  lemma ConditionFalseStopsChain(retryCount: nat, retries: int, conditionHolds: seq<bool>)
    requires conditionHolds != [] && !conditionHolds[0]
    ensures Chain(retryCount, retries, conditionHolds) == Propagated(retryCount, 0)
  {
  }

  /**
   * Under the built-in policy (no options anywhere), a server error on an idempotent
   * method is retried while fewer than 3 retries were made, and `post` is never retried.
   */
  lemma DefaultPolicyDecisions(isRetryAllowed: ErrorRecord -> bool, e: ErrorRecord, retryCount: nat)
    requires e.config.Some? && e.config.value.httpMethod.Some?
    ensures var p := Resolve(Merge(NoOptions, NoOptions), isRetryAllowed);
      && (e.config.value.httpMethod.value in IdempotentHttpMethods && e.response.Some? &&
          500 <= e.response.value.status <= 599 ==>
            (Decide(retryCount, p.retries, p.retryCondition(e)).RetryAs? <==> retryCount < 3))
      && (e.config.value.httpMethod.value == "post" ==>
            Decide(retryCount, p.retries, p.retryCondition(e)).GiveUp?)
  {
    var p := Resolve(Merge(NoOptions, NoOptions), isRetryAllowed);
    if e.config.value.httpMethod.value == "post" {
      PostIsNeverRetriedByDefault(isRetryAllowed, e);
    }
  }
}
