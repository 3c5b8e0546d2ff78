# monitoring — a verified model of the observability toolkit

This project models the in-process observability toolkit `monitoring/` that
the services of the repository share. It has four parts:

- **Metrics registry** (`monitoring/metrics/metrics.ts`). `MetricsRegistry`
  keeps its metrics by full name (`${service}_${name}`). Its `counter`,
  `gauge` and `histogram` methods find or create a metric and return a handle.
  The handle mutates that shared metric object in place: `inc`, `set`, `dec`
  and `observe`. `export` renders the Prometheus text, `reset` forgets
  everything, and `createMetrics` registers the five default metrics.
- **Health checker** (`monitoring/health/health-check.ts`). `check()` runs
  the registered probes one after another, records one result per probe and
  folds the results into one status. `liveness()` and `readiness()` derive
  from it. The `database`, `redis` and `httpService` probe factories turn an
  I/O outcome into a result.
- **Alert manager and rule evaluator** (`monitoring/alerting/alerting.ts`).
  `alert` deduplicates by fingerprint within a window, applies a per-minute
  rate limit, fans out to channels, and commits only when some channel
  accepted. `resolve` clears the `info` fingerprint. The rule evaluator checks
  each rule at most once per interval and alerts or resolves on the edges of
  its condition.
- **Logger** (`monitoring/logging/logger.ts`). It has a level filter and
  masks sensitive data in metadata: e-mail addresses, UUIDs, JWTs and
  sensitive property names. It writes one JSON line in production and a
  readable line elsewhere. `error`, `http`, `security` and `audit` are
  helpers over it.

**Form.** Each part keeps the source's form. Objects whose fields the source
updates in place are classes with `modifies` clauses:

- `Metrics.Registry`, `Metrics.Metric` and the three handle classes;
- `Health.HealthChecker`;
- `Alerting.AlertManager`;
- `AlertRules.RuleEvaluator`;
- `Logging.Logger`.

Each loop of the source is a method with a loop (`Export`, `Block`,
`Tally`, `SeriesFor`, `Rebuild`, `Check`, `Evaluate`, `Mask`). Each such
method is proved equal to a specification function. The properties are
proved about those functions as lemmas.

**Supporting modules.**

- `Text`, `Records` and `Json` model the JavaScript built-ins the core
  relies on: `String(n)`, `join`, `split`, `includes`, `toLowerCase`,
  `toUpperCase`, object property order, assignment and spread, and
  `JSON.stringify`/`JSON.parse`.
- `MetricSeries`, `Buckets` and `Exposition` hold the pure meaning of the
  metric operations, the histogram bookkeeping and the export text.

**Numbers.** They are exact thousandths (`Milli = int`). Clocks (`now`), ISO
timestamps (`stamp`, `ts`) and every I/O outcome are parameters:

- the outcome of each probe in a pass of `check()` is `run`;
- the transport result for channel `i` is `fetch(i)`;
- what a rule's condition does in a pass is `inputs(i)`.

**Where the specification and the code differ, the model follows the code:**

- **Label sets.** They are compared by their `JSON.stringify` text, so they
  are keyed in property order: `{a:"1",b:"2"}` and `{b:"2",a:"1"}` are two
  series (`MetricSeries.ReorderedLabelsAreDistinct`). The export also writes
  labels in property order, not sorted.
- **Histogram `+Inf`.** The `le="+Inf"` series carries the count of the last
  listed boundary, not the total count
  (`Buckets.InfMissesLargeObservations`). No `_sum` or `_count` series is
  exported.
- **Health probes** run sequentially, one `await` at a time, in
  registration order.
- **`resolve`** deletes only the fingerprint built with severity `info`. A
  `warning` or `critical` alert with the same title stays deduplicated
  (`Alerting.ResolveClearsInfoOnly`, `Alerting.ResolveScenario`).
- **The rate-limit minute** starts when the manager is created, not at the
  first alert.

**`MetricSeries.FindFrom`.** It compares label sets directly, where the source
compares their JSON texts. `Json.StringifyInjective` proves that the two
tests agree.

## Model

| member | source | states |
|---|---|---|
| Text.NatTextRoundTrip | monitoring/metrics/metrics.ts:206 | Reading back the decimal digits printed for a whole number gives the number again |
| Text.NumText | monitoring/metrics/metrics.ts:206 | `String(x)` of a value in thousandths is non-empty, has no '.' for whole numbers, and starts with '-' exactly for negatives |
| Text.NumTextRoundTrip | monitoring/metrics/metrics.ts:206 | Reading back the text `String(x)` prints for any value in thousandths, negative ones included, gives that value again: the text denotes the number |
| Text.Repeat | monitoring/logging/logger.ts:72 | `'*'.repeat(n)` has length n and holds only that character |
| Text.IncludesAt | monitoring/logging/logger.ts:95 | `hay.includes(needle)` holds exactly when the needle occurs at some offset |
| Text.Lower | monitoring/logging/logger.ts:95 | `toLowerCase` keeps the length and lowers each letter in place |
| Text.Upper | monitoring/logging/logger.ts:145 | `toUpperCase` keeps the length and raises each letter in place |
| Records.Get | monitoring/logging/logger.ts:134 | Reading a property is absent exactly when the key is not one of the object's keys |
| Records.AssignKeys | monitoring/logging/logger.ts:96-98 | `obj[k] = v` keeps the key order and appends `k` exactly when it was new |
| Records.AssignGet | monitoring/logging/logger.ts:96-98 | After `obj[k] = v`, `k` reads `v` and every other key reads as before |
| Records.AssignNew | monitoring/logging/logger.ts:96-98 | Assigning a new key appends the property at the end |
| Records.AssignAt | monitoring/logging/logger.ts:135 | Assigning an existing key replaces its value in place |
| Records.GetAt | monitoring/logging/logger.ts:134 | Reading a key gives the value of the first property with that key |
| Records.AssignUnique | monitoring/health/health-check.ts:37 | Assignment keeps the keys of an object distinct |
| Records.SpreadGet | monitoring/logging/logger.ts:126-132 | A key of `{...base, ...extra}` reads from `extra` when `extra` has it, otherwise from `base` |
| Records.Assign | monitoring/logging/logger.ts:96-98 | Property assignment on an object kept as an ordered list of properties (see `Records.AssignGet`) |
| Records.Spread | monitoring/logging/logger.ts:126-132 | Object spread `{...base, ...extra}` (see `Records.SpreadGet`) |
| Json.ReadQuoted | monitoring/metrics/metrics.ts:165 | Decoding an escaped string literal gives the string back and leaves the text after it |
| Json.ReadMembersOf | monitoring/metrics/metrics.ts:165 | The members of a stringified non-empty label set read back as that label set |
| Json.StringifyRoundTrip | monitoring/metrics/metrics.ts:141-165 | `JSON.parse(JSON.stringify(labels))` gives the same label set, so a histogram's label key parses back to its labels |
| Json.StringifyInjective | monitoring/metrics/metrics.ts:54-56 | Two label sets have the same JSON text exactly when they are equal: the same pairs in the same order |
| Json.SerializeLabels | monitoring/alerting/alerting.ts:53 | Rendering a label set as a general JSON value agrees with the label-set rendering |
| Json.Stringify | monitoring/metrics/metrics.ts:141 | `JSON.stringify` of a label set, in property order (see `Json.StringifyRoundTrip`, `Json.StringifyInjective`) |
| Json.Serialize | monitoring/logging/logger.ts:140 | `JSON.stringify` of a general value (see `Json.SerializeLabels`) |
| MetricSeries.FindFrom | monitoring/metrics/metrics.ts:54-56 | The index found holds exactly these labels and no earlier one does; no result means no series has them |
| MetricSeries.FindSameLabels | monitoring/metrics/metrics.ts:54-56 | The series lookup depends only on the label sets, not on values or timestamps |
| MetricSeries.FindAppended | monitoring/metrics/metrics.ts:61 | After a push, the lookup still finds an existing series first, otherwise the new one when its labels match |
| MetricSeries.FindAfterUpdate | monitoring/metrics/metrics.ts:57-59 | Updating a series' value in place keeps every lookup |
| MetricSeries.UpdatedValue | monitoring/metrics/metrics.ts:57-59 | An in-place update changes only the value read for its own label set |
| MetricSeries.AddedValue | monitoring/metrics/metrics.ts:53-62 | `inc(labels, d)` adds d to that series (starting from nothing when it is new); every other label set keeps its value |
| MetricSeries.AssignedValue | monitoring/metrics/metrics.ts:84-94 | `set(v, labels)` makes that series read v and leaves every other series alone |
| MetricSeries.SubtractedIsAddedNegated | monitoring/metrics/metrics.ts:106-116 | `dec(labels, d)` equals `inc(labels, -d)`, including the `-value` start of a new series |
| MetricSeries.AddedShape | monitoring/metrics/metrics.ts:53-62 | On an existing series only that entry changes and the length stays; otherwise exactly one series holding the increment is appended |
| MetricSeries.AddedKeepsDistinct | monitoring/metrics/metrics.ts:53-116 | `inc`, `set` and `dec` never create a second series for one label set |
| MetricSeries.CounterMonotone | monitoring/metrics/metrics.ts:53-62 | With non-negative increments a counter series never decreases and never disappears |
| MetricSeries.IncThenDecRestores | monitoring/metrics/metrics.ts:95-116 | Gauge `inc` then `dec` by the same amount restores the value (a new series is left at 0) |
| MetricSeries.ReorderedLabelsAreDistinct | monitoring/metrics/metrics.ts:54-56 | `{a,b}` and `{b,a}` label objects create two series, each holding its own increment |
| MetricSeries.Added | monitoring/metrics/metrics.ts:53-62 | The find-or-append sum of `inc` (see `MetricSeries.AddedValue`, `MetricSeries.AddedShape`) |
| MetricSeries.Assigned | monitoring/metrics/metrics.ts:84-94 | The find-or-append assignment of `set` (see `MetricSeries.AssignedValue`) |
| MetricSeries.Subtracted | monitoring/metrics/metrics.ts:106-116 | The find-or-append difference of `dec` (see `MetricSeries.SubtractedIsAddedNegated`) |
| Buckets.Distinct | monitoring/metrics/metrics.ts:145 | The keys of `new Map(buckets.map(b => [b, 0]))` are each boundary once, the same set as the buckets, and the buckets themselves when they have no duplicates |
| Buckets.BucketSamples | monitoring/metrics/metrics.ts:167-172 | One series per boundary, in map order, holding that boundary's count and the `le` label `String(b)` |
| Buckets.ObserveKeepsKeyOrder | monitoring/metrics/metrics.ts:144-148 | `observe` keeps the label keys listed once each, in first-seen order, matching the counter map |
| Buckets.ObserveKeepsShapes | monitoring/metrics/metrics.ts:144-148 | Every label key stays the text of a label set and keeps a counter for each boundary |
| Buckets.ObserveKeepsOrdered | monitoring/metrics/metrics.ts:151-160 | With ascending boundaries, every label set's bucket counts stay cumulative and within its observation count |
| Buckets.ObserveKeepsValid | monitoring/metrics/metrics.ts:140-160 | `observe` preserves the whole invariant of a histogram's maps (key order, shapes, sums and counts keyed alike, cumulative counts) |
| Buckets.HistogramSnoc | monitoring/metrics/metrics.ts:164-178 | One more label key visited by the rebuild loop appends that key's series |
| Buckets.BucketSamplesSnoc | monitoring/metrics/metrics.ts:166-172 | One more boundary visited by the inner rebuild loop appends its series |
| Buckets.BumpedNone | monitoring/metrics/metrics.ts:151-156 | A bucket loop over no boundaries leaves the counters unchanged |
| Buckets.BumpedStep | monitoring/metrics/metrics.ts:151-156 | One more boundary b in the bucket loop adds one to b exactly when the value is at most b |
| Buckets.ObserveBucket | monitoring/metrics/metrics.ts:151-156 | With distinct boundaries, an observation adds one to bucket b exactly when `v <= b` |
| Buckets.ObserveBuckets | monitoring/metrics/metrics.ts:151-156 | The same for every listed boundary at once |
| Buckets.ObserveUnlisted | monitoring/metrics/metrics.ts:151-156 | A boundary that is not listed is never touched |
| Buckets.ObserveKeepsCumulative | monitoring/metrics/metrics.ts:151-160 | With ascending boundaries the buckets stay cumulative, and each is at most the count plus one after an observation |
| Buckets.FreshIsEmpty | monitoring/metrics/metrics.ts:145 | A label set seen for the first time starts with cumulative, zero counts |
| Buckets.SeriesShape | monitoring/metrics/metrics.ts:166-177 | A label set contributes one series per distinct boundary and then the `+Inf` series, which carries the last boundary's count |
| Buckets.HistogramCount | monitoring/metrics/metrics.ts:163-178 | The rebuilt values hold (distinct boundaries + 1) series per label key |
| Buckets.InfMissesLargeObservations | monitoring/metrics/metrics.ts:173-177 | A 20 s observation with the default boundaries leaves `+Inf` at 0: it is not the total count |
| Buckets.TimerDropsEarlierCounts | monitoring/metrics/metrics.ts:180-187 | After two earlier observations, a third counted on the handle's own maps gives `+Inf` 3, but counted on maps that start empty gives 1 |
| Buckets.LeLabel | monitoring/metrics/metrics.ts:169 | `{...labels, le}` reads `le` as the boundary text and every other label as before |
| Buckets.Bumped | monitoring/metrics/metrics.ts:151-156 | The bucket loop over the boundaries (see `Buckets.ObserveBucket`) |
| Buckets.InfValue | monitoring/metrics/metrics.ts:173-177 | The `+Inf` value: the count of the last listed boundary, or 0 (see `Buckets.InfMissesLargeObservations`) |
| Buckets.HistogramSamples | monitoring/metrics/metrics.ts:163-178 | The rebuilt `metric.values` (see `Buckets.HistogramCount`, `Buckets.SeriesShape`) |
| Exposition.Pairs | monitoring/metrics/metrics.ts:202-204 | One `k="v"` text per label, in property order |
| Exposition.SeriesLines | monitoring/metrics/metrics.ts:201-207 | One `name{labels} value` line per series, in the order of `metric.values` |
| Exposition.ExpositionOfNothing | monitoring/metrics/metrics.ts:194-211 | An empty registry exports the empty string |
| Exposition.SuffixEmpty | monitoring/metrics/metrics.ts:205 | The `{...}` suffix is absent exactly when the series has no labels |
| Exposition.UnlabelledLine | monitoring/metrics/metrics.ts:201-207 | A series line is `name value` without labels and `name{k="v",...} value` with them |
| Exposition.LinesConcat | monitoring/metrics/metrics.ts:197-208 | The export lines are the concatenation, in registry order, of the per-metric blocks |
| Exposition.LinesSnoc | monitoring/metrics/metrics.ts:197-208 | One more metric visited by the export loop appends its block |
| Exposition.SeriesLinesSnoc | monitoring/metrics/metrics.ts:201-207 | One more series visited by the inner export loop appends its line |
| Exposition.LinesOfOne | monitoring/metrics/metrics.ts:198-208 | One metric contributes its HELP line, its TYPE line and one line per series |
| Exposition.SplitJoin | monitoring/metrics/metrics.ts:210 | Splitting `lines.join('\n')` at line breaks gives the lines back when none contains one |
| Exposition.SampleLineNoNewline | monitoring/metrics/metrics.ts:201-207 | A series line has no line break when its name and labels have none |
| Exposition.LinesNoNewline | monitoring/metrics/metrics.ts:197-208 | No export line has a line break when no name, help text or label has one |
| Exposition.ExpositionLines | monitoring/metrics/metrics.ts:194-211 | The exported text splits back into exactly the HELP, TYPE and series lines of every metric, in order |
| Exposition.SampleLine | monitoring/metrics/metrics.ts:202-206 | One series line (see `Exposition.UnlabelledLine`) |
| Exposition.MetricLines | monitoring/metrics/metrics.ts:198-207 | The lines of one metric (see `Exposition.LinesOfOne`) |
| Exposition.ExportText | monitoring/metrics/metrics.ts:194-211 | The exported text (see `Exposition.ExpositionLines`) |
| Metrics.FullNameInjective | monitoring/metrics/metrics.ts:40 | Within one registry, different names give different full names |
| Metrics.FullName | monitoring/metrics/metrics.ts:40 | `${service}_${name}` (see `Metrics.FullNameInjective`) |
| Metrics.Metric.constructor | monitoring/metrics/metrics.ts:42-47 | A new metric has its name, help and type and no series |
| Metrics.Named | monitoring/metrics/metrics.ts:41-50 | The metric found is registered under that full name; no result means no metric has it |
| Metrics.Snapshots | monitoring/metrics/metrics.ts:197 | What export reads is each registered metric's data, in registration order |
| Metrics.Block | monitoring/metrics/metrics.ts:197-208 | The lines the export loop pushes for one metric are its HELP, TYPE and series lines |
| Metrics.CounterHandle.constructor | monitoring/metrics/metrics.ts:50-52 | The handle shares the registered metric object |
| Metrics.CounterHandle.Inc | monitoring/metrics/metrics.ts:53-62 | The shared metric's series become their find-or-append sum (see `MetricSeries.AddedValue`) |
| Metrics.GaugeHandle.constructor | monitoring/metrics/metrics.ts:81-83 | The handle shares the registered metric object |
| Metrics.GaugeHandle.Set | monitoring/metrics/metrics.ts:84-94 | The series of the label set is set to the value, or appended (see `MetricSeries.AssignedValue`) |
| Metrics.GaugeHandle.Inc | monitoring/metrics/metrics.ts:95-105 | The series of the label set gains the amount, or is appended holding it |
| Metrics.GaugeHandle.Dec | monitoring/metrics/metrics.ts:106-116 | The series of the label set loses the amount, or is appended holding `-value` |
| Metrics.HistogramHandle.constructor | monitoring/metrics/metrics.ts:135-137 | A handle starts with its own empty counter, sum and count maps, which satisfy the histogram invariant |
| Metrics.HistogramHandle.Observe | monitoring/metrics/metrics.ts:140-179 | The maps take the observation (new key last, buckets bumped, sum and count updated), the invariant is kept, and the metric's values are rebuilt from the maps |
| Metrics.HistogramHandle.StopTimer | monitoring/metrics/metrics.ts:180-187 | Corrected timer: the label key is listed as `observe` lists it, the count of the label set gains one and its sum gains the duration, the label set's counters become the bucket loop `Bumped` run on them (a boundary listed twice gains once per listing), so with distinct boundaries each listed bucket gains one exactly when the duration fits, every other label set keeps its counters, sum and count, and the values are rebuilt from the maps |
| Metrics.HistogramHandle.Tally | monitoring/metrics/metrics.ts:151-156 | The bucket loop gives the bumped counters |
| Metrics.HistogramHandle.SeriesFor | monitoring/metrics/metrics.ts:165-177 | The series written for one label key: its buckets in map order, then `+Inf` |
| Metrics.HistogramHandle.Rebuild | monitoring/metrics/metrics.ts:163-178 | The metric's values become the series of every label key, in first-seen order |
| Metrics.Registry.constructor | monitoring/metrics/metrics.ts:28-34 | A new registry for the service has no metrics |
| Metrics.Registry.Obtain | monitoring/metrics/metrics.ts:40-50 | A registered full name returns its metric as it is, whatever its type, with the registry unchanged; otherwise a new empty metric is registered last; names stay distinct |
| Metrics.Registry.Counter | monitoring/metrics/metrics.ts:39-52 | `counter(name, help)` is find-or-create, with a new handle on the metric |
| Metrics.Registry.Gauge | monitoring/metrics/metrics.ts:70-83 | `gauge(name, help)` is find-or-create, with a new handle on the metric |
| Metrics.Registry.Histogram | monitoring/metrics/metrics.ts:123-139 | `histogram(name, help, buckets)` is find-or-create, with a new handle whose maps are empty on every call |
| Metrics.Registry.StopTimerAsWritten | monitoring/metrics/metrics.ts:180-187 | The timer as written: through a handle obtained anew, the registered metric's values become the series of this one observation alone |
| Metrics.Registry.Export | monitoring/metrics/metrics.ts:194-211 | `export()` is the joined lines of every metric in registration order (see `Exposition.ExpositionLines`) |
| Metrics.Registry.Reset | monitoring/metrics/metrics.ts:231-233 | After `reset()` there are no metrics and the export is empty |
| Metrics.DefaultNamesDistinct | monitoring/metrics/metrics.ts:243-247 | The five default metric names are pairwise distinct |
| Metrics.RegisterDefaults | monitoring/metrics/metrics.ts:240-247 | Five registrations of distinct names on a new registry give five new empty metrics, in order, with the histogram on the default buckets |
| Metrics.CreateMetrics | monitoring/metrics/metrics.ts:239-269 | `createMetrics(service)` registers the counter, histogram, gauge, gauge and counter with their names and help texts, in that order |
| Health.Results | monitoring/health/health-check.ts:47-73 | One result per registered probe, in registration order: the probe's own result with its latency, or an unhealthy record with the error's or timeout's message |
| Health.ResultsSnoc | monitoring/health/health-check.ts:47-73 | One more probe visited by the loop of `check()` appends its result |
| Health.WorstSnoc | monitoring/health/health-check.ts:59-63 | Folding one more result raises the status to the worse of the two |
| Health.HealthChecker.constructor | monitoring/health/health-check.ts:28-31 | A new checker has no checks and records its start time |
| Health.HealthChecker.AddCheck | monitoring/health/health-check.ts:36-38 | A new name is added last and a known one keeps its place with the new probe; other names are unchanged |
| Health.HealthChecker.Check | monitoring/health/health-check.ts:43-83 | `check()` returns the results of every probe and the worst status, with uptime in whole seconds |
| Health.HealthChecker.Liveness | monitoring/health/health-check.ts:88-93 | `liveness()` is always 'ok' |
| Health.HealthChecker.Readiness | monitoring/health/health-check.ts:98-104 | Ready exactly when the service is not unhealthy, with the same results as `check()` |
| Health.WorstUnhealthy | monitoring/health/health-check.ts:59-71 | The overall status is unhealthy exactly when some result is |
| Health.WorstDegraded | monitoring/health/health-check.ts:59-63 | The overall status is degraded exactly when no result is unhealthy and some is degraded |
| Health.WorstHealthy | monitoring/health/health-check.ts:45-72 | The overall status is healthy exactly when every result is (so also with no checks) |
| Health.FailedProbeIsUnhealthy | monitoring/health/health-check.ts:64-72 | A probe that throws or times out is recorded unhealthy with its message, and the service is unhealthy |
| Health.NoChecksIsHealthy | monitoring/health/health-check.ts:44-45 | With no checks the service is healthy and has no results |
| Health.MixedPasses | monitoring/health/health-check.ts:59-63 | healthy+degraded gives degraded; healthy+unhealthy gives unhealthy |
| Health.UptimeSeconds | monitoring/health/health-check.ts:79 | Uptime is the whole number of seconds elapsed, rounded down |
| Health.DatabaseProbe | monitoring/health/health-check.ts:115-134 | Healthy exactly when the ping resolves, never degraded; a failure carries the error's message or the default |
| Health.RedisProbe | monitoring/health/health-check.ts:139-158 | Healthy exactly on `PONG`, degraded on any other reply, unhealthy exactly when the ping throws |
| Health.HttpProbe | monitoring/health/health-check.ts:163-200 | Healthy exactly on the expected status, degraded on another status, unhealthy exactly when the request throws |
| Health.FactoryProbesResolve | monitoring/health/health-check.ts:139-158 | A factory probe always resolves, so it makes the service unhealthy only through its own verdict |
| Health.Record | monitoring/health/health-check.ts:47-72 | The result recorded for one probe outcome (see `Health.Results`, `Health.FailedProbeIsUnhealthy`) |
| Health.Worst | monitoring/health/health-check.ts:45-63 | The folded overall status (see `Health.WorstUnhealthy`, `Health.WorstDegraded`, `Health.WorstHealthy`) |
| Alerting.ColorTablesAgree | monitoring/alerting/alerting.ts:81-115 | The Slack and Discord colours of each severity are the same RGB value |
| Alerting.UpperName | monitoring/alerting/alerting.ts:91 | The upper-cased severity names are INFO, WARNING and CRITICAL |
| Alerting.HeadlineText | monitoring/alerting/alerting.ts:91 | The message title is `[SEVERITY] title` |
| Alerting.AbsentLabelsAreEmpty | monitoring/alerting/alerting.ts:52-54 | No labels and `{}` give the same fingerprint, ending in `:{}` |
| Alerting.FingerprintSeverity | monitoring/alerting/alerting.ts:52-54 | Within a service, alerts of different severities never share a fingerprint |
| Alerting.SendToChannelAccepts | monitoring/alerting/alerting.ts:140-183 | A channel accepts exactly when it takes the severity, has a URL, and is email or answers ok |
| Alerting.Dispatch | monitoring/alerting/alerting.ts:220-222 | One result per channel, in order, each that channel's decision |
| Alerting.AlertOutcome | monitoring/alerting/alerting.ts:189-231 | The alert is returned exactly when it is not deduplicated at the check time, the refreshed count is under the limit and some channel accepted it; only then is the fingerprint committed with the time read after the channels answered, and the count raised |
| Alerting.AlertKeepsBound | monitoring/alerting/alerting.ts:214-230 | The per-minute count never exceeds the limit |
| Alerting.ResolveKeepsBound | monitoring/alerting/alerting.ts:254-279 | `resolve` keeps the count within the limit |
| Alerting.ResolveClearsInfoOnly | monitoring/alerting/alerting.ts:271-273 | After `resolve`, the info alert of that title and labels is no longer deduplicated; other severities' entries and the count are kept |
| Alerting.DedupScenario | monitoring/alerting/alerting.ts:207-225 | An identical alert inside the window is dropped; the window counts from the send time, so with 2 s of dispatch an alert 300.5 s after the first check is still dropped and one 300 s after the send goes out |
| Alerting.RateLimitScenario | monitoring/alerting/alerting.ts:68-75 | With limit 2 the third distinct alert in a minute is dropped, and one after the minute rolls over goes out |
| Alerting.ResolveScenario | monitoring/alerting/alerting.ts:271-273 | After alert and resolve, an info alert goes out again at once; a critical one stays deduplicated |
| Alerting.AlertManager.constructor | monitoring/alerting/alerting.ts:38-47 | Default window 5 minutes and limit 10; no fingerprints; count 0; the first minute ends 60 s after creation |
| Alerting.AlertManager.CheckRateLimit | monitoring/alerting/alerting.ts:68-75 | Starts a new minute when due, then allows exactly when the count is under the limit |
| Alerting.AlertManager.Alert | monitoring/alerting/alerting.ts:189-231 | The new state and the result are those of the alert transition, with the check-time and send-time clock readings kept apart; the count stays bounded |
| Alerting.AlertManager.Resolve | monitoring/alerting/alerting.ts:254-279 | Deletes the info fingerprint and returns `[RESOLVED] title` with severity info and `resolved` set |
| Alerting.Fingerprint | monitoring/alerting/alerting.ts:52-54 | The deduplication key (see `Alerting.FingerprintSeverity`, `Alerting.AbsentLabelsAreEmpty`) |
| Alerting.Deduplicates | monitoring/alerting/alerting.ts:59-63 | A present, non-zero timestamp younger than the window suppresses the alert (see `Alerting.AlertOutcome`) |
| Alerting.Refreshed | monitoring/alerting/alerting.ts:68-73 | The reset step of the per-minute window (see `Alerting.AlertManager.CheckRateLimit`) |
| Alerting.SendToChannel | monitoring/alerting/alerting.ts:140-183 | One channel's decision (see `Alerting.SendToChannelAccepts`) |
| Alerting.AlertTransition | monitoring/alerting/alerting.ts:189-231 | The state change and result of `alert`, with the send time read after the dispatch (see `Alerting.AlertOutcome`) |
| Alerting.ResolveTransition | monitoring/alerting/alerting.ts:271-273 | The state change of `resolve` (see `Alerting.ResolveClearsInfoOnly`) |
| AlertRules.SkippedRule | monitoring/alerting/alerting.ts:322-325 | A rule checked less than its interval ago is skipped, with its state unchanged |
| AlertRules.DueRule | monitoring/alerting/alerting.ts:327-345 | A due rule records the check time; it alerts exactly on a false-to-true edge and resolves exactly on a true-to-false edge with `message - Issue resolved`; a throwing condition keeps `firing` |
| AlertRules.StepEdges | monitoring/alerting/alerting.ts:332-342 | An alert only ever comes from a non-firing state, and a resolve only from a firing one |
| AlertRules.Run | monitoring/alerting/alerting.ts:316-347 | One action per pass over a sequence of passes |
| AlertRules.RunAlternates | monitoring/alerting/alerting.ts:332-342 | Over any passes, alerts and resolves alternate: never two alerts without a resolve between them, nor two resolves without an alert |
| AlertRules.EdgeScenario | monitoring/alerting/alerting.ts:316-347 | Conditions false, false, true, true, false give one alert at the third pass and one resolve at the fifth |
| AlertRules.RuleEvaluator.constructor | monitoring/alerting/alerting.ts:299-302 | No rules and no states, not running |
| AlertRules.RuleEvaluator.AddRule | monitoring/alerting/alerting.ts:308-311 | The rule is appended and its state (re)set to not firing, never checked |
| AlertRules.RuleEvaluator.EvaluateRule | monitoring/alerting/alerting.ts:319-346 | One rule's step: its new state, and the manager changed by the alert or resolve it makes |
| AlertRules.RuleEvaluator.Evaluate | monitoring/alerting/alerting.ts:316-347 | One pass over all rules in order: the states and the manager end as the pass function says |
| AlertRules.RuleEvaluator.Start | monitoring/alerting/alerting.ts:352-359 | A no-op while running; otherwise it starts running and evaluates once at once |
| AlertRules.RuleEvaluator.Stop | monitoring/alerting/alerting.ts:364-369 | Not running afterwards, rules and states unchanged, safe to call at any time |
| AlertRules.RuleStep | monitoring/alerting/alerting.ts:320-345 | One rule in one pass (see `AlertRules.SkippedRule`, `AlertRules.DueRule`) |
| AlertRules.Pass | monitoring/alerting/alerting.ts:316-347 | One pass of `evaluate()` over the rules (see `AlertRules.RuleEvaluator.Evaluate`) |
| Logging.RankOrder | monitoring/logging/logger.ts:38-43 | debug < info < warn < error, and different levels have different ranks |
| Logging.ShouldLogUpward | monitoring/logging/logger.ts:121-123 | A logged level implies every more severe one is logged; errors always are; a debug threshold logs everything |
| Logging.Pieces | monitoring/logging/logger.ts:69 | `split('@')` gives at least one piece, none containing the separator |
| Logging.PiecesJoin | monitoring/logging/logger.ts:69 | Joining the pieces with the separator gives the string back |
| Logging.PiecesWhole | monitoring/logging/logger.ts:69 | A string without the separator is one piece |
| Logging.PiecesAround | monitoring/logging/logger.ts:69 | The first piece of `x@y`, with no `@` in x, is x |
| Logging.PiecesCover | monitoring/logging/logger.ts:69 | Every non-separator character lies in some piece |
| Logging.MaskLocal | monitoring/logging/logger.ts:71-73 | The masked local part has at least 3 characters and an asterisk second |
| Logging.EmailMasked | monitoring/logging/logger.ts:68-76 | An address keeps its domain; its local part keeps its first and last characters around at most five asterisks, or becomes `***` |
| Logging.UuidMasked | monitoring/logging/logger.ts:78-80 | A UUID keeps its first 8 characters, and the fixed mask of the same length follows |
| Logging.JwtMasked | monitoring/logging/logger.ts:82-84 | A JWT-shaped token is replaced as a whole |
| Logging.PlainUnchanged | monitoring/logging/logger.ts:85 | Any other string with no `@` is logged as it is |
| Logging.MaskLocalIdempotent | monitoring/logging/logger.ts:71-73 | Masking a masked local part changes nothing |
| Logging.EmailFixed | monitoring/logging/logger.ts:68-76 | The output of the e-mail branch is left alone by a second masking |
| Logging.UuidFixed | monitoring/logging/logger.ts:78-80 | The output of the UUID branch is left alone by a second masking |
| Logging.JwtFixed | monitoring/logging/logger.ts:82-84 | The JWT mask is itself left alone by masking |
| Logging.MaskStringIdempotent | monitoring/logging/logger.ts:66-86 | Masking a string twice is the same as masking it once |
| Logging.SensitiveFromMeans | monitoring/logging/logger.ts:95 | The `some` over the field names from position i holds exactly when some later name occurs in the key, ignoring case |
| Logging.SensitiveMeans | monitoring/logging/logger.ts:95 | A key is sensitive exactly when it contains one of the field names, ignoring case |
| Logging.MaskItems | monitoring/logging/logger.ts:88-90 | `value.map(maskValue)` keeps the length and masks each element |
| Logging.MaskObject | monitoring/logging/logger.ts:92-102 | Masking an object keeps its keys in order; a sensitive key's value becomes `[REDACTED]` and every other value is masked recursively |
| Logging.MaskShape | monitoring/logging/logger.ts:61-105 | Masking keeps arrays' lengths and objects' keys, keeps strings as strings, and returns any other value as it is |
| Logging.MaskIdempotent | monitoring/logging/logger.ts:61-105 | Masking a value twice is the same as masking it once |
| Logging.Mask | monitoring/logging/logger.ts:61-105 | The recursive `maskValue` with its array map and property loop computes the masking function |
| Logging.FullEntryShape | monitoring/logging/logger.ts:125-136 | The full entry has timestamp, level, service, message and meta, in that order; meta is masked exactly when masking is on and meta was given |
| Logging.SpreadOverDefaults | monitoring/logging/logger.ts:126-132 | Spreading the entry over the defaults changes no default and adds `meta` last |
| Logging.LevelTags | monitoring/logging/logger.ts:145 | The level tags are DEBUG, INFO, WARN and ERROR |
| Logging.FormatDevelopment | monitoring/logging/logger.ts:143-145 | Outside production the line is built from the full entry's fields |
| Logging.MetaTail | monitoring/logging/logger.ts:144 | The metadata tail is present exactly when metadata was given, and is its (masked) JSON |
| Logging.DevelopmentLine | monitoring/logging/logger.ts:125-146 | A development line is `[ts] [LEVEL] [service] message`, followed by the metadata's JSON (masked when masking is on) when metadata was given |
| Logging.SecurityText | monitoring/logging/logger.ts:204-206 | In development, a security event without metadata reads `[ts] [WARN] [service] [SECURITY] event` |
| Logging.Emit | monitoring/logging/logger.ts:148-166 | Nothing is written exactly when the level is below the threshold |
| Logging.StreamsDistinct | monitoring/logging/logger.ts:153-165 | Each level goes to its own console method |
| Logging.ItemTexts | monitoring/logging/logger.ts:182 | `String(array)` has one text per element |
| Logging.ErrorMetaProperties | monitoring/logging/logger.ts:172-186 | The error helper keeps every other meta property; `error` holds the error's description, or stays as in meta for a falsy non-error |
| Logging.ErrorObjectKeys | monitoring/logging/logger.ts:176-180 | The error object is name and message in production, with `stack` after them elsewhere |
| Logging.HttpMetaGet | monitoring/logging/logger.ts:191-199 | A property of the request's meta wins; otherwise method, path, statusCode and durationMs describe the request |
| Logging.SecurityLine | monitoring/logging/logger.ts:204-206 | A security event is written exactly when warnings are enabled, to `console.warn`, with the `[SECURITY]` text |
| Logging.BareErrorLine | monitoring/logging/logger.ts:172-186 | `error(message)` without error or meta still logs an empty object: the development line ends in ` {}` |
| Logging.BareErrorMeta | monitoring/logging/logger.ts:173 | Without error or meta the logged metadata is `{}` and its tail is ` {}` |
| Logging.BareErrorText | monitoring/logging/logger.ts:144-145 | The development line of an error with empty metadata ends in ` {}` |
| Logging.Logger.constructor | monitoring/logging/logger.ts:110-119 | A logger keeps its configuration and has written nothing |
| Logging.Logger.Log | monitoring/logging/logger.ts:148-166 | The console gains exactly the line `log` emits, if any |
| Logging.Logger.Error | monitoring/logging/logger.ts:172-186 | The console gains the error line with the error described in its metadata |
| Logging.Logger.Http | monitoring/logging/logger.ts:191-199 | The console gains the info line `HTTP Request` with the request's metadata |
| Logging.Logger.Security | monitoring/logging/logger.ts:204-206 | The console gains the warn line `[SECURITY] event` |
| Logging.Logger.Audit | monitoring/logging/logger.ts:211-213 | The console gains the info line `[AUDIT] action` |
| Logging.ShouldLog | monitoring/logging/logger.ts:121-123 | The level filter (see `Logging.ShouldLogUpward`) |
| Logging.MaskString | monitoring/logging/logger.ts:66-86 | The string branch of `maskValue` (see `Logging.EmailMasked`, `Logging.MaskStringIdempotent`) |
| Logging.Sensitive | monitoring/logging/logger.ts:95 | The sensitive-key test (see `Logging.SensitiveMeans`) |
| Logging.MaskValue | monitoring/logging/logger.ts:61-105 | `maskValue` (see `Logging.MaskObject`, `Logging.MaskIdempotent`) |
| Logging.FullEntry | monitoring/logging/logger.ts:125-136 | The full entry (see `Logging.FullEntryShape`) |
| Logging.FormatEntry | monitoring/logging/logger.ts:125-146 | The formatted line (see `Logging.DevelopmentLine`) |
| Logging.ToText | monitoring/logging/logger.ts:182 | `String(v)` of a non-error value (see `Logging.ItemTexts`) |
| Logging.ErrorMeta | monitoring/logging/logger.ts:173-183 | The metadata of `error` (see `Logging.ErrorMetaProperties`) |
| Logging.HttpMeta | monitoring/logging/logger.ts:192-198 | The metadata of `http` (see `Logging.HttpMetaGet`) |

## Left out

- **Wall clocks, ids and ISO timestamps.** `Date.now`,
  `new Date().toISOString()` and the `Math.random` alert ids are replaced by
  parameters (`now`, `stamp`, `ts`). The alert's `id`, `timestamp` and
  `resolvedAt` are not modelled.
- **Floating point.** Every number is an exact multiple of 0.001. NaN,
  infinities and rounding of float sums are not modelled.
- **`startTimer`'s clock.** `process.hrtime` is not modelled: the elapsed
  time is a parameter in whole milliseconds.
- **Network and payloads.**
  - `fetch` in `sendToChannel` is the `Transport` outcome of each channel.
  - The Slack, Discord and webhook payload bodies are not modelled beyond
    their colour tables and headline.
  - The console messages of the manager and the evaluator are not modelled.
- **`resolve`'s own dispatch to the channels.** Its results are ignored and
  change no state, so it is not modelled.
- **Concurrency.**
  - `Promise.all` is modelled as independent per-channel outcomes.
  - Interleavings of concurrent `alert`, `observe` or `evaluate` calls are
    not modelled; each call runs to completion.
  - The `evaluate()` that `start` triggers without awaiting it is modelled as
    completing before `start` returns.
- **Timers.** The `setInterval` of `start`/`stop` is only the running flag.
  The 5000 ms `Promise.race` timeout of `check()` is the `TimedOut` outcome.
  The `AbortController` timeout of `httpService` is a thrown error.
- **`diskSpace` and `memory` probes.** The first is a constant placeholder;
  the second computes a float percentage from `process.memoryUsage`.
- **The alert shorthands `info`, `warning` and `critical`.** They call
  `this.alert` from arrow functions whose `this` is not the manager. `alert`
  covers each severity.
- **A rule message given as a function** is represented by the text it
  produces.
- **`toJSON`.** It is a structural copy of what `Metrics.Registry.Snapshot`
  reads.
- **The `counter`, `gauge`, `histogram`, `export`, `toJSON` and `reset`
  wrappers returned by `createMetrics`** only delegate to the registry
  methods modelled above.
- **Logger environment variables.** `LOG_LEVEL`, `NODE_ENV` and
  `APP_VERSION` are modelled as unset, so an option missing from the
  configuration takes `info`, `development` or `true`.
- **`version`** is never read by the logger.
- **`child(context)`** ignores its context and returns a logger with the same
  configuration, that is `Logging.Logger.constructor` on the same
  configuration.
- **The console** is a sequence of (method, text) outputs.
- **Clock readings inside one `alert` call.** The deduplication check and
  the rate-limit check read `Date.now()` one after the other with nothing
  awaited between them; the model gives both the one reading `now`. The
  reading after the channels answered is a separate parameter `sentAt`.
- **Clock readings inside one `check()` pass.** The source reads
  `new Date()` again for each failed probe's record and once more for the
  report; the model gives all the timestamps of one pass the one reading
  `stamp`.
- **Probe outcomes** in one pass of `check()` are a function `run` of the
  probe. A probe registered under two names therefore has one outcome per
  pass in the model, where the source calls it once per name and the two
  calls may end differently.
- **The `resolved` property of a new alert.** `alert()` builds its object
  without a `resolved` property; the model stores `resolved: false`. Both
  read as falsy.
- **Strings.** They are sequences of Unicode characters, while JavaScript's
  `length` and indexing count UTF-16 code units.
- **Logging.MaskLocal:** keeps the first and last character and counts the
  length in Unicode characters. For a local part with a character outside
  the Basic Multilingual Plane (an emoji, say), the source keeps a lone
  surrogate half and prints one more asterisk per such character.
- **Logging.EmailMasked:** states the masked e-mail in Unicode characters, for
  the same reason as `Logging.MaskLocal`.
- **Metadata values** are JSON-like data: `null`, `undefined`, booleans,
  numbers, strings, arrays and plain objects. A `Date`, an `Error` or another
  class instance inside metadata, which `maskValue` turns into `{}` through
  `Object.entries`, is not modelled.
- **Text.NumText:** always prints a plain decimal. JavaScript prints
  magnitudes of 1e21 and above in exponent form, which the model does not.
- **Case mapping.** `toLowerCase` and `toUpperCase` are modelled on ASCII
  letters only.
- **Property order.** Objects keep insertion order for every key.
  JavaScript lists integer-like keys first.
- **`String(v)`** of functions, symbols and class instances other than
  `Error` is not modelled.
- **Exposition.ExpositionLines:** holds only when names, help texts and labels
  contain no line break, because the source writes them unescaped.
- **Buckets.ObserveKeepsCumulative and Buckets.ObserveKeepsOrdered:** are
  stated for strictly ascending boundaries. With unsorted or repeated
  boundaries the source's counts need not be cumulative.
- **Logging.MaskIdempotent and Logging.MaskShape:** are stated for values
  whose objects have distinct keys, as every JavaScript object does.

## Findings

| source | as written | input that shows it | evidently intended | confidence | as-written member | corrected member |
|---|---|---|---|---|---|---|
| monitoring/metrics/metrics.ts:180-187 | The stop function of `startTimer` observes through `this.histogram(name, help, buckets)`. That is a handle obtained anew, whose counter, sum and count maps are empty. It then rebuilds the registered metric's values from those maps alone. | Buckets `[1]`; `observe(0)` twice on the handle; then a timer stopped after 0 ms. The `+Inf` series reads 1. | The timed duration is added to the same histogram's counts, so `+Inf` reads 3. | not executed; high | Metrics.Registry.StopTimerAsWritten, Buckets.TimerDropsEarlierCounts | Metrics.HistogramHandle.StopTimer |
