/**
 * Retry state tracker and the request descriptor it lives on. The descriptor
 * is mutated in place by the retry layer, so it is a class; so is the object
 * stored under the namespace key, which is the caller's per-request options
 * object and, once the layer has touched it, also the retry state.
 */
module StateTracker {
  import opened Wrappers
  import opened Classifier
  import opened RetryOptions
  import opened Reviser

  /**
   * `config[namespace]`: the per-request option overrides the caller put there, plus
   * `retryCount` (absent until the layer sets it) and `lastRequestTime` (0 until the
   * first send is recorded; JavaScript treats 0 and undefined alike).
   */
  class RetrySlot {
    var overrides: Options
    var retryCount: Option<nat>
    var lastRequestTime: int

    /** A slot holding only the given options, as a caller would attach them. */
    constructor (overrides: Options)
      ensures this.overrides == overrides && retryCount == None && lastRequestTime == 0
    {
      this.overrides := overrides;
      retryCount := None;
      lastRequestTime := 0;
    }
  }

  /** A request descriptor (`config`) as the client hands it to the interceptors. */
  class Config {
    var httpMethod: Option<string>
    var url: Option<string>
    var baseURL: Option<string>
    var timeout: real
    var agent: Option<AgentId>
    var httpAgent: Option<AgentId>
    var httpsAgent: Option<AgentId>
    var identityTransform: bool
    var slot: RetrySlot?

    constructor (v: ConfigValue, slot: RetrySlot?)
      ensures Value() == v && this.slot == slot
    {
      httpMethod, url, baseURL, timeout := v.httpMethod, v.url, v.baseURL, v.timeout;
      agent, httpAgent, httpsAgent := v.agent, v.httpAgent, v.httpsAgent;
      identityTransform := v.identityTransform;
      this.slot := slot;
    }

    /** The descriptor's fields as a value. */
    function Value(): ConfigValue
      reads this
    {
      ConfigValue(httpMethod, url, baseURL, timeout, agent, httpAgent, httpsAgent, identityTransform)
    }

    /** What the classifier sees of this request. */
    function Request(): RequestInfo
      reads this
    {
      RequestInfo(httpMethod)
    }

    /** The overrides under the namespace key; none when the key is unset. */
    function Overrides(): Options
      reads this, slot
    {
      if slot == null then NoOptions else slot.overrides
    }

    /** `retryCount || 0`: the count the state tracker reports for this request. */
    function RetryCount(): nat
      reads this, slot
    {
      if slot == null then 0 else slot.retryCount.GetOr(0)
    }

    /** The recorded time of the last send, 0 when none is recorded. */
    function LastRequestTime(): int
      reads this, slot
    {
      if slot == null then 0 else slot.lastRequestTime
    }

    /** `getRequestOptions(config, defaults)`: the per-request overrides merged over the defaults. */
    function RequestOptions(defaults: Options): (o: Options)
      reads this, slot
      ensures o == Merge(defaults, Overrides())
    {
      if slot == null then Merge(defaults, NoOptions) else Merge(defaults, slot.overrides)
    }

    /**
     * `getCurrentState(config)`: the object under the namespace key, created empty if
     * absent, with `retryCount` defaulted to 0; it is stored back under the key. An
     * existing object is kept (same identity) and none of its other keys change.
     */
    method GetCurrentState() returns (state: RetrySlot)
      modifies this`slot, slot
      ensures slot == state
      ensures old(slot) != null ==> state == old(slot)
      ensures old(slot) == null ==> fresh(state)
      ensures state.retryCount == Some(old(RetryCount()))
      ensures state.overrides == old(Overrides())
      ensures state.lastRequestTime == old(LastRequestTime())
      ensures Value() == old(Value())
    {
      if slot == null {
        state := new RetrySlot(NoOptions);
      } else {
        state := slot;
      }
      state.retryCount := Some(state.retryCount.GetOr(0));
      slot := state;
    }

    /**
     * Two calls in a row return the same object with the same count: creating the state
     * is idempotent and never resets a count.
     */
    method GetCurrentStateTwice() returns (first: RetrySlot, second: RetrySlot)
      modifies this`slot, slot
      ensures first == second == slot
      ensures first.retryCount == Some(old(RetryCount()))
      ensures old(slot) != null ==> first == old(slot)
    {
      first := GetCurrentState();
      second := GetCurrentState();
    }

    /** The request interceptor: record `now` (`Date.now()`) as the time of this send. */
    method BeforeSend(now: int)
      modifies this`slot, slot
      ensures slot != null && (old(slot) != null ==> slot == old(slot))
      ensures old(slot) == null ==> fresh(slot)
      ensures slot.lastRequestTime == now
      ensures RetryCount() == old(RetryCount()) && slot.retryCount.Some?
      ensures Overrides() == old(Overrides())
      ensures Value() == old(Value())
    {
      var state := GetCurrentState();
      state.lastRequestTime := now;
    }

    /** `fixConfig(client, config)`: delete the agent fields that are the client's own defaults. */
    method FixConfig(client: ClientDefaults)
      modifies this`agent, this`httpAgent, this`httpsAgent
      ensures Value() == FixAgents(old(Value()), client)
    {
      if client.agent == agent {
        agent := None;
      }
      if client.httpAgent == httpAgent {
        httpAgent := None;
      }
      if client.httpsAgent == httpsAgent {
        httpsAgent := None;
      }
    }
  }
}
