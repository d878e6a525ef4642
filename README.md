# fast-abtest routing and bookkeeping, modelled in Dafny

This project models the core of `fast_abtest`, a decorator that splits calls to a
handler between a main scenario and registered variants by traffic percentage.
The model covers five parts.

- **Variant record and circuit breaker** (`breaker.dfy`, module `Breaker`). A
  `Variant` object holds a share, a threshold, `callCount`, `errorCount` and
  `isActive`. `IncrementCall` counts a routed call. `ThresholdExceeded` counts an
  error. It switches the variant off once it has seen more than 10 calls and its
  error ratio is above the threshold. `Step` and `Run` give the same updates as
  values, so that sequences of calls and errors can be reasoned about.
- **Weighted selection** (`selector.dfy`, module `Selection`). The random draw
  `randint(1, 100)` becomes a parameter `r`. `Pick` is the choice the selector
  makes. It is the first active variant whose running sum of active shares reaches
  `r`, or the main scenario when none does. `VariantSelector.RandomSelect` is the
  loop itself, proved against `Pick`. `Distribution` replaces the test suite's
  statistical checks with an exact count over the 100 possible draws.
- **Registration and the older dispatcher** (`registry.dfy`, `decimal.dfy`,
  module `Registry`). The main scenario is a `Scenario` object whose share is
  lowered in place. A stored variant is an immutable `Entry` value, because
  nothing in that file changes a stored variant. `RegisterVariant` validates a
  share. `AddToVariants` stores the variant under the key "V" followed by the
  number of variants already stored, and lowers the main share. `RegisteredScenario.Call` is that file's own
  selection loop, which has no active flags. `RouteIsPick` proves that this loop
  agrees with the selector's `Pick` when every variant is active.
- **Metric lifecycle** (`metrics.dfy`, `recorder.dfy`, modules `Metrics` and
  `Recorder`). An `Exporter` is a log of `(label, value)` samples. The calls
  counter logs `calls_total` when a call starts. The errors counter logs
  `errors_total` when a failed call ends. `MetricRecorder.Enter` and `Exit` call
  every hook in list order with one stored context. They record each hook call in
  a ghost trace.
- **Configuration** (`config.py` as `config.dfy`, module `Config`). It covers the
  port range check, the defaults for labels and buckets, and the write-once
  `__setattr__` guard.

Where the code's own promises and its behaviour disagree, the model follows the
behaviour:

- `add_to_variants` inserts the variant and lowers the main share *before* it
  checks for overflow. A registration that raises "Total traffic percentage
  exceeds 100" therefore leaves the variant registered and the main share
  negative. The sum of the main share and the variant shares still equals 100
  (`AddToVariants`, `OverflowExample`). The `ab_test` docstring
  (fast_abtest/decorator.py:133) promises "Protection against exceeding 100%
  traffic allocation". Lines 35-38 of fast_abtest/registred_scenario.py commit the
  insertion and the new main share first, and raise only afterwards.
- `MetricRecorder.__enter__` discards what `on_start` returns. Every hook sees
  the one stored context; no context is threaded from hook to hook.
- `MetricRecorder.__exit__` does not catch exceptions raised by `on_end`.
  The modelled built-in hooks never raise.
- The breaker's guard `call_count > 10` is checked on the counters as they are.
  The selector never counts calls on the main scenario, so the main scenario's
  breaker can never trip.

## Model

| member | source | states |
|---|---|---|
| `Breaker.Variant.constructor` | fast_abtest/interface.py:17-24 | A new variant has the given handler, share and threshold, zero calls, zero errors, and is active. |
| `Breaker.Variant.IncrementCall` | fast_abtest/interface.py:27-29 | `callCount` goes up by exactly one. No other field changes. |
| `Breaker.Variant.ThresholdExceeded` | fast_abtest/interface.py:31-37 | `errorCount` goes up by exactly one and `callCount` is unchanged. The result is true iff calls > 10 and the new error count exceeds threshold × calls. `isActive` becomes false exactly then and is otherwise unchanged. It is never set to true. |
| `Breaker.TripsIff` | fast_abtest/interface.py:34 | The ratio test `errors / max(calls, 1) > threshold` past the floor is equivalent to the division-free `errors > threshold × calls` with calls > 10. |
| `Breaker.HighThresholdNeedsMoreErrorsThanCalls` | fast_abtest/interface.py:34 | With a threshold of at least 1.0 (the main scenario's), the breaker trips only when errors outnumber calls. |
| `Breaker.RunCounts` | fast_abtest/interface.py:27-33 | Over any sequence of routed and failed calls, calls rise by exactly the number of routings and errors by exactly the number of failures. |
| `Breaker.InactiveStaysInactive` | fast_abtest/interface.py:27-37 | Once a variant is inactive, no sequence of calls and errors makes it active again. |
| `Breaker.NoTripBelowFloor` | fast_abtest/interface.py:34-37 | While a variant has seen at most 10 calls, any number of errors leaves `isActive` as it was. |
| `Selection.PickIsFirstHit` | fast_abtest/variant_selector.py:23-35 | The choice for draw `r` is variant `k` iff `k` is active, its cumulative active share is ≥ `r`, and no earlier variant satisfies both. The choice is main iff no variant does. |
| `Selection.InactiveNeverPicked` | fast_abtest/variant_selector.py:27-28 | An inactive variant is never chosen, whatever the draw. |
| `Selection.PickInterval` | fast_abtest/variant_selector.py:24-33 | With non-negative active shares, variant `k` is chosen exactly for the draws in (active sum before `k`, active sum through `k`], and only if it is active. |
| `Selection.PickMainInterval` | fast_abtest/variant_selector.py:35 | With non-negative active shares, the main scenario is chosen exactly for the draws above the total active share. |
| `Selection.Distribution` | fast_abtest/variant_selector.py:24-35 | If the active shares are non-negative and sum to at most 100, then out of the 100 draws each active variant is chosen exactly its share of times and each inactive one never. The main scenario is chosen 100 − sum times. |
| `Selection.VariantSelector.constructor` | fast_abtest/variant_selector.py:8-16 | Stores the main scenario, the variants and the idempotent flag. The flag defaults to false. |
| `Selection.VariantSelector.IdempotentSelect` | fast_abtest/variant_selector.py:37-38 | Returns the main scenario and changes nothing. |
| `Selection.VariantSelector.RandomSelect` | fast_abtest/variant_selector.py:23-35 | Returns the variant `Pick` chooses on the pre-call state, or the main scenario. Only a chosen registered variant has its call counted. Every other variant is unchanged. The main scenario is unchanged when it is the fallback. |
| `Selection.VariantSelector.Select` | fast_abtest/variant_selector.py:18-21 | In idempotent mode, returns the main scenario and leaves every variant unchanged. Otherwise it returns the choice `Pick` makes on the pre-call state. A chosen registered variant has its call counted, with share and threshold kept. Every other variant is unchanged, and the main scenario is unchanged when it is the fallback. |
| `Decimal.ValueOfDigits` | fast_abtest/registred_scenario.py:34 | Reading back the decimal rendering of `n` gives `n`. |
| `Registry.VariantKeyInjective` | fast_abtest/registred_scenario.py:34 | Keys "V{n}" for different `n` differ, so no registration overwrites another. |
| `Registry.Scenario.constructor` | fast_abtest/registred_scenario.py:15-18 | Holds the given handler and share. Registration later lowers this share in place; the stored variants are `Entry` values. |
| `Registry.NextKeyFresh` | fast_abtest/registred_scenario.py:34-35 | While the stored keys are "V0" … "V{n−1}" in insertion order, the next key "V{n}" is not yet in the dictionary, so the assignment adds a variant and never replaces one. |
| `Registry.RegisterVariant` | fast_abtest/registred_scenario.py:32-45 | Succeeds iff 1 ≤ share ≤ 99 and returns the decorator carrying that share. Otherwise it raises "traffic_percent must be between 1 and 99". Registry state is not touched either way. |
| `Registry.RegisteredScenario.constructor` | fast_abtest/registred_scenario.py:28-30 | Starts with no variants around the given main scenario. Shares are conserved exactly when the main share is 100. |
| `Registry.RegisteredScenario.AddToVariants` | fast_abtest/registred_scenario.py:33-39 | Appends the variant under the fresh key `VariantKey(n)`, with `n` the count before the call, and keeps insertion order. The main share drops by exactly the variant's share. It raises "Total traffic percentage exceeds 100" iff the new main share is negative, and the variant stays registered in that case. Main share plus variant shares stays 100, including when it raises. |
| `Registry.RouteIsFirstReach` | fast_abtest/registred_scenario.py:52-59 | The older dispatcher picks variant `k` iff its cumulative share is ≥ `r` and no earlier variant's is. It picks main iff no cumulative share reaches `r`, so it always picks main when there are no variants. |
| `Registry.RouteIsPick` | fast_abtest/registred_scenario.py:52-59 | The older dispatcher makes the same choice as the selector's `Pick` with every variant active. |
| `Registry.RouteDistribution` | fast_abtest/registred_scenario.py:52-59 | With non-negative shares summing to at most 100, among the 100 draws each variant is chosen exactly its share of times and main 100 − sum times. |
| `Registry.RegisteredScenario.Call` | fast_abtest/registred_scenario.py:47-59 | Returns exactly the result of the handler that `Route` chooses for `r`, applied to the call's arguments. The registry is not modified. |
| `Registry.OneVariantAtThirty` | tests/decorator.py:13-26 | One variant at 30%: it gets exactly 30 of the 100 draws and main gets 70. |
| `Registry.TwoVariantsAtTwentyAndThirty` | tests/decorator.py:56-75 | Variants at 20% and 30%: they get exactly 20 and 30 of the 100 draws and main gets 50. |
| `Registry.OverflowExample` | tests/decorator.py:41-53 | Registering 50 then 60 raises on the second registration. As written, two variants are then registered, the main share is −10, and the shares still sum to 100. |
| `Metrics.Exporter.constructor` | fast_abtest/monitoring/interface.py:17-18 | An exporter starts with an empty log. |
| `Metrics.Exporter.Record` | fast_abtest/monitoring/interface.py:17-18 | Recording appends exactly the given label and value to the log. |
| `Metrics.CallsSample` | fast_abtest/monitoring/calls_counter.py:12-18 | The calls sample has metric "calls_total", `is_error` false, value 1, and the context's scenario and variant. |
| `Metrics.ErrorsSample` | fast_abtest/monitoring/errors_counter.py:15-21 | The errors sample has metric "errors_total", `is_error` true, value 1, and the context's scenario and variant. |
| `Metrics.CallsMetric.constructor` | fast_abtest/monitoring/calls_counter.py:8-9 | Keeps the exporter it is given. |
| `Metrics.CallsMetric.OnStart` | fast_abtest/monitoring/calls_counter.py:11-18 | Appends exactly one entry to the exporter log: the calls sample for the context. |
| `Metrics.CallsMetric.OnEnd` | fast_abtest/monitoring/calls_counter.py:20 | Leaves the exporter unchanged, whether or not the call failed. |
| `Metrics.ErrorsMetric.constructor` | fast_abtest/monitoring/errors_counter.py:8-9 | Keeps the exporter it is given. |
| `Metrics.ErrorsMetric.OnStart` | fast_abtest/monitoring/errors_counter.py:11 | Leaves the exporter unchanged. |
| `Metrics.ErrorsMetric.OnEnd` | fast_abtest/monitoring/errors_counter.py:13-21 | Appends exactly one errors sample when `is_error` holds. Otherwise the log is unchanged. |
| `Metrics.StartSamplesCountCalls` | fast_abtest/monitoring/recorder.py:16-18 | The start of a call logs one "calls_total" sample for the call's own context per calls counter among the hooks, and nothing else. |
| `Metrics.EndSamplesCountErrors` | fast_abtest/monitoring/recorder.py:21-24 | The end of a failed call logs one "errors_total" sample per errors counter. The end of a successful call logs nothing. |
| `Recorder.FullTrace` | fast_abtest/monitoring/recorder.py:16-24 | In the trace of a whole `with` block, each hook is started once and ended once in list order. All starts precede all ends, and every call sees the same context and error flag. |
| `Recorder.MetricRecorder.constructor` | fast_abtest/monitoring/recorder.py:8-14 | Stores the metrics and the context. No hook has been called. |
| `Recorder.MetricRecorder.Enter` | fast_abtest/monitoring/recorder.py:16-19 | Calls `on_start` once per metric in list order, always with the stored context, and returns the recorder. The exporter log grows by exactly the start samples. |
| `Recorder.MetricRecorder.Exit` | fast_abtest/monitoring/recorder.py:21-24 | Calls `on_end` once per metric in list order with the stored context. `is_error` is true iff an exception type was passed. The exporter log grows by exactly the end samples. It never suppresses the exception. |
| `Recorder.CountersExample` | fast_abtest/monitoring/recorder.py:16-24 | With a calls counter and an errors counter on one exporter, a call logs "calls_total" and then, only if it failed, "errors_total". |
| `Config.ValidatePort` | fast_abtest/config.py:38-42 | Returns the port unchanged iff 1024 ≤ port ≤ 65535. Otherwise it raises "Port must be between 1024 and 65535". |
| `Config.OrDefault` | fast_abtest/config.py:30-31 | `None` or an empty list gives the default. A non-empty list is kept as given. |
| `Config.ABTestConfig.constructor` | fast_abtest/config.py:20 | A new instance has no attribute assigned. |
| `Config.ABTestConfig.SetAttr` | fast_abtest/config.py:33-36 | Assigning an attribute that is already set raises "Configuration is immutable" and changes nothing. Otherwise it adds the attribute. Attributes already set keep their values. |
| `Config.ABTestConfig.Init` | fast_abtest/config.py:22-31 | An invalid port raises before any attribute is assigned. A valid one assigns the port, the labels (defaulting to variant, func, metric) and the buckets (defaulting to the five-element list), each once. The port defaults to 8009. |
| `Config.PortExamples` | tests/test_prometheus_exporter.py:123-134 | Ports 99999 and −1 are refused, and 9091 and the default 8009 are accepted. A configured port cannot be reassigned, by the write-once guard of fast_abtest/config.py:33-36. |

## Left out

- Randomness: `randint(1, 100)` is the parameter `r`. The seeded generator and the ±tolerance statistical tests are replaced by exact counts over the 100 draws.
- Locks and concurrency: the per-variant `Lock` is dropped. Each method is one atomic step.
- Async handlers and `markcoroutinefunction`: not modelled.
- `fast_abtest/decorator.py`: reflection and wiring are not part of this model. Only its initial main share of 100 and threshold of 1.0 are used, as the starting point of `Conserved`.
- The Prometheus exporter, the latency metric (float timing and task-local state) and `consistently_distribution.py` (signature introspection) are not part of this model.
- `ABTestConfig.from_env` and `ConfigManager`: environment I/O, not modelled.
- `enable_variant`, threshold-range validation and signature matching: fast_abtest/registred_scenario.py and fast_abtest/variant_selector.py do not contain them. The tests that call them (tests/test_error_rate_threshold.py) target a later `RegisteredScenario`, the one fast_abtest/decorator.py:43 builds with three arguments.
- Handler bodies: handlers are names. What a handler returns is the function parameter `invoke` of `Call`. Exceptions raised by a handler are not modelled; that file does no bookkeeping on them.
- Floating point: thresholds, error ratios and histogram buckets are modelled as exact reals, without float rounding.
- The call `Context` is reduced to the scenario and variant names the counters read. Its other fields are not part of this model.
- `Breaker.Variant.constructor`: takes only handler, share and threshold. The dataclass would also accept explicit initial counters, but no caller passes them.
- `Registry.RegisteredScenario.AddToVariants`: dictionary values are modelled as immutable entries, because nothing in that file changes a stored variant. Only the main scenario is an object updated in place.
- `Recorder.MetricRecorder.Enter`: user-defined hooks (`Custom`) appear only in the trace. Their own effects, and any exception they raise, are not modelled.
- `Recorder.MetricRecorder.Exit`: the model requires every built-in hook to record on one exporter, as the decorator builds them.
- `Config.ABTestConfig.SetAttr`: attribute names outside `__slots__` cannot be expressed, so the `AttributeError` Python raises for them is not modelled.
