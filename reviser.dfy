/**
 * Request reviser: what happens to a request descriptor before it is sent
 * again. Stated here on values; the in-place edits on `StateTracker.Config`
 * and in `Orchestrator.OnError` are proved to produce exactly these values.
 */
module Reviser {
  import opened Wrappers
  import opened JsString

  /** Transport agents are compared by object identity; an agent is its identity. */
  type AgentId = nat

  /** The client's default configuration, as far as the reviser reads it. */
  datatype ClientDefaults = ClientDefaults(agent: Option<AgentId>, httpAgent: Option<AgentId>, httpsAgent: Option<AgentId>)

  /**
   * The fields of a request descriptor the retry layer reads or writes. `timeout` is
   * 0 when no timeout is set (JavaScript treats 0 and undefined alike here);
   * `identityTransform` says whether `transformRequest` is the identity.
   */
  datatype ConfigValue = ConfigValue(
    httpMethod: Option<string>,
    url: Option<string>,
    baseURL: Option<string>,
    timeout: real,
    agent: Option<AgentId>,
    httpAgent: Option<AgentId>,
    httpsAgent: Option<AgentId>,
    identityTransform: bool)

  /** `fixConfig`: an agent field identical to the client default is deleted; nothing else changes. */
  function FixAgents(v: ConfigValue, client: ClientDefaults): (r: ConfigValue)
    ensures r.agent == (if v.agent == client.agent then None else v.agent)
    ensures r.httpAgent == (if v.httpAgent == client.httpAgent then None else v.httpAgent)
    ensures r.httpsAgent == (if v.httpsAgent == client.httpsAgent then None else v.httpsAgent)
    ensures r.(agent := v.agent, httpAgent := v.httpAgent, httpsAgent := v.httpsAgent) == v
  {
    v.(agent := if client.agent == v.agent then None else v.agent,
       httpAgent := if client.httpAgent == v.httpAgent then None else v.httpAgent,
       httpsAgent := if client.httpsAgent == v.httpsAgent then None else v.httpsAgent)
  }

  /** Removing default agents a second time removes nothing more. */
  lemma FixAgentsIdempotent(v: ConfigValue, client: ClientDefaults)
    ensures FixAgents(FixAgents(v, client), client) == FixAgents(v, client)
  {
  }

  /** A custom agent (one that is not the client default) is kept. */
  lemma CustomAgentIsKept(v: ConfigValue, client: ClientDefaults)
    requires v.agent.Some? && v.agent != client.agent
    ensures FixAgents(v, client).agent == v.agent
  {
  }

  /** The guard of the timeout rebudget: no reset asked for, a timeout set, a previous send recorded. */
  predicate RebudgetApplies(shouldResetTimeout: bool, timeout: real, lastRequestTime: int): (r: bool)
    ensures shouldResetTimeout ==> !r
    ensures timeout == 0.0 ==> !r
    ensures lastRequestTime == 0 ==> !r
  {
    !shouldResetTimeout && timeout != 0.0 && lastRequestTime != 0
  }

  /**
   * `Math.max(timeout - lastRequestDuration - delay, 1)`: what is left of the budget, but
   * never below 1 ms, since 0 or less would mean "no timeout" to the transport.
   */
  function RebudgetedTimeout(timeout: real, lastRequestDuration: int, delay: real): (t: real)
    ensures t >= 1.0
    ensures t >= timeout - lastRequestDuration as real - delay
    ensures t == 1.0 || t == timeout - lastRequestDuration as real - delay
  {
    var remaining := timeout - lastRequestDuration as real - delay;
    if remaining > 1.0 then remaining else 1.0
  }

  /** The rebudgeting example: 1000 ms, 300 ms spent on the failed send, 200 ms of delay leave 500 ms. */
  lemma RebudgetExample()
    ensures RebudgetedTimeout(1000.0, 300, 200.0) == 500.0
  {
  }

  /**
   * `/^http/.test(url)`. An undefined url is matched as the string "undefined", which
   * does not match (`UndefinedUrlIsNotHttp`), so only a set url can pass.
   */
  predicate IsHttpUrl(url: Option<string>): (r: bool)
    ensures r <==> StartsWith(ToJsString(url), "http")
  {
    UndefinedUrlIsNotHttp();
    url.Some? && StartsWith(url.value, "http")
  }

  lemma UndefinedUrlIsNotHttp()
    ensures !StartsWith(ToJsString(None), "http")
  {
    assert ToJsString(None)[0] == 'u';
  }

  /**
   * The url fix AS WRITTEN: `url.replace(baseURL, '')` for an http url. With `baseURL`
   * unset the pattern is `String(undefined)`, so the text "undefined" is searched for.
   */
  function NormalizeUrlAsWritten(url: Option<string>, baseURL: Option<string>): (r: Option<string>)
    ensures !IsHttpUrl(url) ==> r == url
    ensures IsHttpUrl(url) ==> url.Some? && r == Some(ReplaceFirst(url.value, ToJsString(baseURL), ""))
  {
    if IsHttpUrl(url) then Some(ReplaceFirst(url.value, ToJsString(baseURL), "")) else url
  }

  /**
   * The url fix as intended: when the url is an http url and a base URL is set, the
   * first occurrence of the base URL (anywhere, not only at the front) is removed.
   * Every other url is left as it is.
   */
  function NormalizeUrl(url: Option<string>, baseURL: Option<string>): (r: Option<string>)
    ensures !(IsHttpUrl(url) && baseURL.Some?) ==> r == url
    ensures IsHttpUrl(url) && baseURL.Some? ==>
      url.Some? && r.Some? &&
      match IndexOf(url.value, baseURL.value)
      case None => r == url
      case Some(i) => r.value == url.value[..i] + url.value[i + |baseURL.value|..]
    ensures baseURL.Some? ==> r == NormalizeUrlAsWritten(url, baseURL)
  {
    if IsHttpUrl(url) && baseURL.Some? then Some(ReplaceFirst(url.value, baseURL.value, "")) else url
  }

  /** An absolute url that is the base URL followed by a path becomes that path. */
  lemma {:induction false} NormalizeUrlStripsBase(base: string, path: string)
    requires StartsWith(base + path, "http")
    ensures NormalizeUrl(Some(base + path), Some(base)) == Some(path)
  {
    ReplaceFirstPrefix(base, path);
  }

  /** `baseURL + "/admin/endpoint"` is rewritten to `/admin/endpoint`. */
  lemma AdminEndpointExample()
    ensures NormalizeUrl(Some("http://api.example.com/admin/endpoint"), Some("http://api.example.com")) == Some("/admin/endpoint")
  {
    assert "http://api.example.com/admin/endpoint" == "http://api.example.com" + "/admin/endpoint";
    NormalizeUrlStripsBase("http://api.example.com", "/admin/endpoint");
  }

  /**
   * The source's fix with no base URL set strips the first "undefined" out of an
   * http url: "http://h/undefined" becomes "http://h/", which the intended fix keeps.
   */
  lemma UndefinedBaseUrlIsStripped(u: string)
    requires u == "http://h/undefined"
    ensures NormalizeUrlAsWritten(Some(u), None) == Some("http://h/")
    ensures NormalizeUrl(Some(u), None) == Some(u)
  {
    assert IsHttpUrl(Some(u)) by { assert u[..4] == "http"; }
    FirstUndefinedAtNine(u);
    assert ToJsString(None) == "undefined";
    var r := ReplaceFirst(u, "undefined", "");
    assert r == u[..9] + "" + u[18..];
    assert u[18..] == [] && u[..9] == "http://h/";
    assert r == "http://h/";
    assert NormalizeUrlAsWritten(Some(u), None) == Some(r);
  }

  /** In general: with no base URL, any http url containing "undefined" loses those nine characters. */
  lemma AsWrittenDropsUndefined(u: string)
    requires IsHttpUrl(Some(u)) && IndexOf(u, "undefined").Some?
    ensures NormalizeUrlAsWritten(Some(u), None).Some?
    ensures |NormalizeUrlAsWritten(Some(u), None).value| == |u| - 9
    ensures NormalizeUrl(Some(u), None) == Some(u)
  {
  }

  lemma FirstUndefinedAtNine(u: string)
    requires u == "http://h/undefined"
    ensures IndexOf(u, "undefined") == Some(9)
  {
    assert OccursAt(u, "undefined", 9) by { assert u[9..18] == "undefined"; }
    forall j: nat | j < 9 ensures !OccursAt(u, "undefined", j) {
      assert u[j] != 'u';
      assert j + 9 <= |u| ==> u[j..j + 9][0] == u[j];
    }
  }

  /**
   * Everything done to a request before it is resent, in source order: default agents
   * removed, timeout rebudgeted when the guard holds, body transform made the identity,
   * base URL taken out of an absolute url. The method is never touched.
   */
  function Revise(v: ConfigValue, client: ClientDefaults, shouldResetTimeout: bool, lastRequestTime: int, now: int, delay: real): (r: ConfigValue)
    ensures r.httpMethod == v.httpMethod && r.baseURL == v.baseURL
    ensures r.agent == FixAgents(v, client).agent
    ensures r.httpAgent == FixAgents(v, client).httpAgent
    ensures r.httpsAgent == FixAgents(v, client).httpsAgent
    ensures RebudgetApplies(shouldResetTimeout, v.timeout, lastRequestTime) ==>
      r.timeout >= 1.0 && r.timeout == RebudgetedTimeout(v.timeout, now - lastRequestTime, delay)
    ensures !RebudgetApplies(shouldResetTimeout, v.timeout, lastRequestTime) ==> r.timeout == v.timeout
    ensures r.identityTransform
    ensures r.url == NormalizeUrl(v.url, v.baseURL)
  {
    var fixed := FixAgents(v, client);
    var timed := if RebudgetApplies(shouldResetTimeout, v.timeout, lastRequestTime)
      then fixed.(timeout := RebudgetedTimeout(v.timeout, now - lastRequestTime, delay))
      else fixed;
    timed.(identityTransform := true, url := NormalizeUrl(v.url, v.baseURL))
  }

  /** A request that had a timeout still has one after revision: it is never turned into "no timeout". */
  lemma TimeoutStaysSet(v: ConfigValue, client: ClientDefaults, shouldResetTimeout: bool, lastRequestTime: int, now: int, delay: real)
    requires v.timeout != 0.0
    ensures Revise(v, client, shouldResetTimeout, lastRequestTime, now, delay).timeout != 0.0
  {
  }
}
