# Retry decision engine of an HTTP-client retry layer

This project models, in Dafny, the core of a small retry layer that plugs into
an HTTP client's interceptors (`index.js`): when a request fails, it decides
whether to send it again, how long to wait, and how to patch the request
descriptor before the resend. The model covers five pieces:

- **Retryability classifier** (`Classifier`): the default `retryCondition`,
  `isRetryableError` with `isNetworkError`, over an error record (optional
  request with an optional method, optional response with a status, optional
  transport code). The external `isRetryAllowed` verdict is an arbitrary
  predicate passed in; the model proves it never changes the answer.
- **Backoff calculator** (`Backoff`): `exponentialDelay`, 2^k * 100 ms plus a
  jitter of 0-20 % of it. The value returned by `Math.random()` is a parameter
  in [0, 1).
- **Retry state tracker** (`StateTracker`): the request descriptor `Config` and
  the object under its namespace key, `RetrySlot`, as classes mutated in place;
  `getCurrentState` (lazy, idempotent creation of `retryCount`), the
  request-interceptor body that records the send time, `fixConfig`; option
  merging (`RetryOptions`) with per-request options over setup defaults over
  built-in defaults.
- **Request reviser** (`Reviser`): the edits made before a resend, stated on
  values: default agents deleted, timeout rebudgeted to
  `max(timeout - elapsed - delay, 1)` under its guard, body transform made the
  identity, and the first occurrence of the base URL taken out of an `http…` url
  (`JsString` gives JavaScript's `indexOf`/`replace` semantics for this).
- **Retry orchestrator** (`Orchestrator`): the error interceptor as one
  transition `OnError`, returning `Reject(error)` or `Retry(config, delay)`,
  proved against the decision function `Decide` and the value-level `Revise`;
  `Chain` runs `Decide` over N consecutive failures to state the retry budget.

Clock readings (`Date.now()`) are the parameter `now`; recorded send times live
in the slot. Delays and timeouts are exact `real` numbers, not floating point
(see "Left out").

Where the repository's prose and the code differ, the model follows the code:
the method check is an exact, case-sensitive list membership (no case
normalisation). The url fix is the exception: `Reviser.NormalizeUrlAsWritten`
follows the code, which does not check that a base URL is set, while the
request transition (`Reviser.Revise`, `Orchestrator.OnError`) uses the
corrected `Reviser.NormalizeUrl` (see Findings).

## Model

| member | source | states |
|---|---|---|
| `Classifier.IsNetworkError` | index.js:15-22 | a network error has no response, a non-empty code and the library's approval; the timeout-abort code `ECONNABORTED` is never one |
| `Classifier.IsRetryableError` | index.js:30-57 | no request descriptor gives false; a method outside the list gives false; otherwise retryable exactly when there is no response or the status is in [500, 599] (the reference predicate `Transient`) |
| `Classifier.RetryAllowedIsIrrelevant` | index.js:44-50 | the classifier's answer is the same for any two `isRetryAllowed` predicates |
| `Classifier.StatusDecides` | index.js:52-56 | with a retriable method and a response, the answer is true iff the status is 5xx, so 2xx, 3xx and 4xx are not retried |
| `Classifier.PostIsNeverRetriedByDefault` | index.js:11 | the default method list excludes `post`, so no `post` failure is retryable under it |
| `Classifier.MethodMatchIsCaseSensitive` | index.js:40-42 | an upper-case `GET` is not matched by the lower-case default list |
| `Backoff.Pow2` | index.js:25 | 2^k is at least 1 |
| `Backoff.Base` | index.js:25 | the deterministic delay 2^k * 100 is a positive multiple of 100, at least 100 |
| `Backoff.BaseDoubles` | index.js:25 | the base for retry k+1 is twice that for retry k |
| `Backoff.BaseStrictlyIncreasing` | index.js:24-28 | the base grows strictly with the retry number |
| `Backoff.ExponentialDelay` | index.js:24-28 | the delay lies in [base, base + base/5) |
| `Backoff.Jitter` | index.js:26 | the random part is in [0, delay/5) |
| `Backoff.JitterBelowFifth` | index.js:26 | 0.2 * delay * r is below delay/5 for r in [0, 1) |
| `Backoff.DelayIncreases` | index.js:24-28 | any delay for a later retry exceeds any delay for an earlier one, whatever the jitters |
| `JsString.ReplaceFirst` | index.js:137 | with no occurrence of the pattern the string is unchanged; otherwise the pattern at its least occurrence index is replaced and the rest is kept |
| `JsString.IndexOf` | index.js:137 | the result is the first index at which the pattern occurs, or none when it occurs nowhere |
| `JsString.ToJsString` | index.js:137 | an unset value converts to the text "undefined" |
| `JsString.ReplaceFirstPrefix` | index.js:137 | removing a leading pattern leaves what followed it |
| `RetryOptions.Merge` | index.js:71-73 | each option the request sets wins; every other option keeps the setup default |
| `RetryOptions.MergeLaws` | index.js:71-73 | merging no overrides yields the defaults, merging over no defaults yields the overrides, and merging the same overrides twice changes nothing |
| `RetryOptions.DefaultCondition` | index.js:98-100 | the built-in retry condition accepts exactly the transient failures of idempotent methods |
| `RetryOptions.Resolve` | index.js:96-103 | unset options become 3 retries, the idempotent-method classifier, the exponential delay and no timeout reset; set ones are used as given |
| `RetryOptions.DelayFor` | index.js:101 | under the default the delay lies in [base, 1.2 * base) for the given retry number; a caller's function is applied to the retry number and the error |
| `Reviser.FixAgents` | index.js:59-69 | each of `agent`, `httpAgent`, `httpsAgent` is deleted independently, exactly when it is identical to the client default; every other field is unchanged |
| `Reviser.FixAgentsIdempotent` | index.js:59-69 | a second pass removes nothing more |
| `Reviser.CustomAgentIsKept` | index.js:59-69 | an agent that is not the client default survives |
| `Reviser.RebudgetApplies` | index.js:118-122 | the rebudget is off when a timeout reset is asked for, when no timeout is set (0) and when no send time is recorded |
| `Reviser.RebudgetedTimeout` | index.js:123-129 | the new timeout is at least 1 and equals the remaining budget whenever that is at least 1 |
| `Reviser.RebudgetExample` | index.js:126-129 | 1000 ms with 300 ms elapsed and 200 ms of delay leaves 500 ms |
| `Reviser.IsHttpUrl` | index.js:136 | true exactly when the url, converted to a string as the regular-expression test does ("undefined" when unset), starts with `http` |
| `Reviser.UndefinedUrlIsNotHttp` | index.js:136 | an unset url, matched as the string "undefined", does not start with `http` |
| `Reviser.NormalizeUrlAsWritten` | index.js:136-138 | a url not starting with `http` is unchanged; otherwise the first occurrence of the base URL converted to a string is removed, "undefined" when the base URL is unset |
| `Reviser.NormalizeUrl` | index.js:136-138 | with an `http` url and a base URL, the first occurrence of the base URL (anywhere in the url) is cut out; every other url is unchanged; agrees with the source whenever a base URL is set |
| `Reviser.NormalizeUrlStripsBase` | index.js:134-138 | base URL followed by a path becomes the path |
| `Reviser.AdminEndpointExample` | index.js:134-138 | `http://api.example.com/admin/endpoint` with that base becomes `/admin/endpoint` |
| `Reviser.UndefinedBaseUrlIsStripped` | index.js:137 | with no base URL, the source turns `http://h/undefined` into `http://h/`; the corrected fix keeps it |
| `Reviser.AsWrittenDropsUndefined` | index.js:137 | with no base URL, any `http` url containing "undefined" loses nine characters under the source's fix and none under the corrected one |
| `Reviser.Revise` | index.js:116-138 | the resent request: default agents removed, timeout rebudgeted to at least 1 when not reset, a timeout set and a send recorded, otherwise kept; transform is the identity; url normalised; method and base URL unchanged |
| `Reviser.TimeoutStaysSet` | index.js:118-130 | a request that had a timeout is never resent without one |
| `StateTracker.Config.RequestOptions` | index.js:71-73 | the descriptor's effective options are its namespace overrides merged over the defaults |
| `StateTracker.Config.GetCurrentState` | index.js:75-80 | returns the object under the namespace key, the same object when one exists and a fresh one otherwise, stored back under the key, with the count kept or set to 0 and its other keys unchanged |
| `StateTracker.Config.GetCurrentStateTwice` | index.js:75-80 | two calls return the same object with the same count: state creation is idempotent and never resets a count |
| `StateTracker.Config.BeforeSend` | index.js:83-87 | each send records `now` as the last send time and keeps the retry count |
| `StateTracker.Config.FixConfig` | index.js:59-69 | the descriptor afterwards is `FixAgents` of the descriptor before |
| `Orchestrator.Record` | index.js:90 | the error record has a request exactly when the error carries a descriptor, with that descriptor's method |
| `Orchestrator.Decide` | index.js:107-111 | a retry happens iff the condition holds and the count is below `retries`; the new count is the old plus exactly one and never exceeds `retries` |
| `Orchestrator.OnError` | index.js:89-146 | no descriptor: the same error is rejected and nothing changes; otherwise the decision is `Decide` on the resolved policy, on reject the same error is returned with the descriptor untouched and the count normalised, on retry the count is the retry number, the delay is computed from it, and the descriptor is `Revise` of the old one |
| `Orchestrator.Chain` | index.js:107-111 | running the interceptor's decision over consecutive failures of one request never lowers the count, and a propagated failure is one of the failures fed in |
| `Orchestrator.ChainWithinBudget` | index.js:107-111 | over any run of consecutive failures the count never exceeds `retries`, never decreases, and equals the start plus the number of resends |
| `Orchestrator.QualifyingFailures` | index.js:107-111 | N failures that all satisfy the condition give count + N when within budget; otherwise the failure that exhausts the budget is propagated with the count at `retries` |
| `Orchestrator.CountAfterQualifyingFailures` | index.js:107-111 | from a fresh request, N qualifying failures leave min(N, retries) |
| `Orchestrator.TwoRetriesThenReject` | index.js:107-111 | with 2 retries and an always-true condition, three failures give two resends and the third failure is propagated, the count ending at 2 |
| `Orchestrator.ConditionFalseStopsChain` | index.js:107-108 | a failure the condition rejects reaches the caller at once, whatever the remaining budget |
| `Orchestrator.DefaultPolicyDecisions` | index.js:96-108 | with no options anywhere, a 5xx on an idempotent method is retried iff fewer than 3 retries were made, and `post` is never retried |

## Left out

- Interceptor registration, the `setTimeout` suspension and the resend through the client are asynchronous plumbing; `Retry(config, delay)` stands for "resend this descriptor after this delay", and `Orchestrator.Chain` assumes every resend fails again (a success simply ends the chain).
- `Date.now()` and `Math.random()` are parameters (`now`, `random`), not modelled clocks or generators.
- The external `is-retry-allowed` library is an arbitrary predicate parameter.
- The run-time check that the retriable methods form an array, and its throw, vanish: the methods are typed as a sequence of strings.
- `transformRequest` is a flag meaning "the transform is the identity", not a function value.
- Transport agents are compared by identity; they are opaque numbers.
- Descriptor fields the layer never reads or writes (headers, body, and so on) are not represented.
- An option key that is present but holds `undefined` is not modelled: in the source it overrides a setup default and then falls back to the built-in default; here an option is either set or absent.
- A caller's `retryCondition` and `retryDelay` are total functions of the error record (method, response status, transport code), not of the whole error object, and cannot throw.
- Non-numeric or non-integer values where numbers are expected (NaN timeouts, a string `retries`, a negative or fractional `retryCount` written by a caller) are not modelled: `retryCount` is a natural number.
- Delays and timeouts are exact reals, not IEEE-754 doubles; the timer's truncation to whole milliseconds is not modelled.
- Backoff.ExponentialDelay: the strict upper bound `d < 1.2 * base` holds only over exact reals; in the source's floating-point arithmetic the jitter can round up so that the delay is exactly 1.2 * base (e.g. 120 for k = 0), and `2 ** k * 100` overflows to Infinity for very large k (about k >= 1018).
- Reviser.Revise: uses the corrected url fix `Reviser.NormalizeUrl`; with no base URL set the source instead cuts the first "undefined" out of an http url (`Reviser.NormalizeUrlAsWritten`), which `Revise` does not do (see Findings).
- Orchestrator.OnError: applies the corrected url fix `Reviser.NormalizeUrl`, not the source's, so with no base URL set it leaves the url alone (see Findings); with a base URL set the two agree (`Reviser.NormalizeUrl` proves this).

## Findings

| source | as written | input that shows it | evidently intended | confidence | as-written member | corrected member |
|---|---|---|---|---|---|---|
| index.js:136-138 | the url fix removes the first occurrence of the base URL converted to a string, even when no base URL is set, in which case it removes the first "undefined" | url `http://h/undefined` with no base URL becomes `http://h/` | leave the url unchanged when no base URL is set | not executed | `Reviser.NormalizeUrlAsWritten`, shown by `Reviser.UndefinedBaseUrlIsStripped` | `Reviser.NormalizeUrl` |
