/**
 * `MetricsRegistry` and the handles its `counter`, `gauge` and `histogram`
 * methods return, as classes over shared, mutable metric objects.
 *
 * A handle keeps a reference to the registry's metric object and updates its
 * `values` in place, so a second handle for the same name (or the registry's
 * export) sees every update made through the first.
 */
module Metrics {
  import opened Wrappers
  import opened Text
  import opened Records
  import opened Json
  import opened MetricSeries
  import opened Exposition
  import opened Buckets

  /** `${service}_${name}`. */
  function FullName(service: string, name: string): string {
    service + "_" + name
  }

  /** Within one registry, different names give different full names. */
  lemma FullNameInjective(service: string, a: string, b: string)
    ensures FullName(service, a) == FullName(service, b) <==> a == b
  {
    if FullName(service, a) == FullName(service, b) {
      assert a == FullName(service, a)[|service| + 1..];
      assert b == FullName(service, b)[|service| + 1..];
    }
  }

  /** One registered metric: `{ name, help, type, values }`. */
  class Metric {
    const name: string
    const help: string
    const kind: MetricType
    var values: seq<Sample>

    constructor (name: string, help: string, kind: MetricType)
      ensures this.name == name && this.help == help && this.kind == kind
      ensures values == []
    {
      this.name := name;
      this.help := help;
      this.kind := kind;
      values := [];
    }

    /** What `export` reads of this metric. */
    function Data(): MetricData
      reads this
    {
      MetricData(name, help, kind, values)
    }
  }

  /** The metric named `full` among `ms`, if any (`this.metrics.get(fullName)`). */
  function Named(ms: seq<Metric>, full: string): (r: Option<Metric>)
    ensures r.Some? ==> r.value in ms && r.value.name == full
    ensures r.None? ==> forall m | m in ms :: m.name != full
  {
    if ms == [] then None
    else if ms[0].name == full then Some(ms[0])
    else Named(ms[1..], full)
  }

  /** The data of the metrics `ms`, in order. */
  function Snapshots(ms: seq<Metric>): (r: seq<MetricData>)
    reads ms
    ensures |r| == |ms| && forall i | 0 <= i < |ms| :: r[i] == ms[i].Data()
  {
    if ms == [] then [] else [ms[0].Data()] + Snapshots(ms[1..])
  }

  /** The lines `export` pushes for one metric. */
  method Block(metric: Metric) returns (lines: seq<string>)
    ensures lines == MetricLines(metric.Data())
  {
    lines := ["# HELP " + metric.name + " " + metric.help];
    lines := lines + ["# TYPE " + metric.name + " " + TypeName(metric.kind)];
    ghost var header := lines;
    var j := 0;
    while j < |metric.values|
      invariant 0 <= j <= |metric.values|
      invariant lines == header + SeriesLines(metric.name, metric.values[..j])
    {
      var value := metric.values[j];
      var labelStr := Join(Pairs(value.labels), ",");
      var suffix := if labelStr != "" then "{" + labelStr + "}" else "";
      var line := metric.name + suffix + " " + NumText(value.value);
      assert line == SampleLine(metric.name, value);
      assert header + SeriesLines(metric.name, metric.values[..j + 1]) == lines + [line] by {
        SeriesLinesSnoc(metric.name, metric.values, j);
      }
      lines := lines + [line];
      j := j + 1;
    }
    assert metric.values[..j] == metric.values;
  }

  /** The handle returned by `counter(name, help)`. */
  class CounterHandle {
    const metric: Metric

    constructor (metric: Metric)
      ensures this.metric == metric
    {
      this.metric := metric;
    }

    /** `inc(labels = {}, value = 1)`. */
    method Inc(now: int, labels: Labels := [], value: Milli := 1000)
      modifies metric
      ensures metric.values == Added(old(metric.values), labels, value, now)
    {
      match FindSeries(metric.values, labels)
      case Some(i) =>
        var existing := metric.values[i];
        metric.values := metric.values[i := Sample(existing.value + value, existing.labels, now)];
      case None =>
        metric.values := metric.values + [Sample(value, labels, now)];
    }
  }

  /** The handle returned by `gauge(name, help)`. */
  class GaugeHandle {
    const metric: Metric

    constructor (metric: Metric)
      ensures this.metric == metric
    {
      this.metric := metric;
    }

    /** `set(value, labels = {})`. */
    method Set(now: int, value: Milli, labels: Labels := [])
      modifies metric
      ensures metric.values == Assigned(old(metric.values), labels, value, now)
    {
      match FindSeries(metric.values, labels)
      case Some(i) =>
        var existing := metric.values[i];
        metric.values := metric.values[i := Sample(value, existing.labels, now)];
      case None =>
        metric.values := metric.values + [Sample(value, labels, now)];
    }

    /** `inc(labels = {}, value = 1)`. */
    method Inc(now: int, labels: Labels := [], value: Milli := 1000)
      modifies metric
      ensures metric.values == Added(old(metric.values), labels, value, now)
    {
      match FindSeries(metric.values, labels)
      case Some(i) =>
        var existing := metric.values[i];
        metric.values := metric.values[i := Sample(existing.value + value, existing.labels, now)];
      case None =>
        metric.values := metric.values + [Sample(value, labels, now)];
    }

    /** `dec(labels = {}, value = 1)`; a label set not seen yet starts at `-value`. */
    method Dec(now: int, labels: Labels := [], value: Milli := 1000)
      modifies metric
      ensures metric.values == Subtracted(old(metric.values), labels, value, now)
    {
      match FindSeries(metric.values, labels)
      case Some(i) =>
        var existing := metric.values[i];
        metric.values := metric.values[i := Sample(existing.value - value, existing.labels, now)];
      case None =>
        metric.values := metric.values + [Sample(-value, labels, now)];
    }
  }

  /**
   * The handle returned by `histogram(name, help, buckets)`, with the
   * `bucketCounters`, `sums` and `counts` maps its closure owns. `keys` is
   * the insertion order of those maps.
   */
  class HistogramHandle {
    const metric: Metric
    const buckets: seq<Milli>
    var keys: seq<string>
    var counters: map<string, map<Milli, int>>
    var sums: map<string, Milli>
    var counts: map<string, int>

    ghost predicate Valid()
      reads this
    {
      ValidMaps(buckets, keys, counters, sums, counts)
    }

    constructor (metric: Metric, buckets: seq<Milli>)
      ensures this.metric == metric && this.buckets == buckets
      ensures keys == [] && counters == map[] && sums == map[] && counts == map[]
      ensures Valid()
    {
      this.metric := metric;
      this.buckets := buckets;
      keys := [];
      counters := map[];
      sums := map[];
      counts := map[];
    }

    /** `observe(value, labels = {})`. */
    method Observe(now: int, value: Milli, labels: Labels := [])
      requires Valid()
      modifies this, metric
      ensures Valid()
      ensures var key := Stringify(labels);
        && keys == ObservedKeys(old(keys), old(counters), key)
        && counters == old(counters)[key := Bumped(Before(old(counters), buckets, key), buckets, value)]
        && sums == ObservedSums(old(sums), key, value)
        && counts == ObservedCounts(old(counts), key)
      ensures metric.values == HistogramSamples(keys, counters, buckets, now)
    {
      var key := Stringify(labels);
      ObserveKeepsValid(buckets, keys, counters, sums, counts, labels, value);
      var initial := Before(counters, buckets, key);
      var c := Tally(initial, value);
      keys, counters, sums, counts :=
        ObservedKeys(keys, counters, key), counters[key := c],
        ObservedSums(sums, key, value), ObservedCounts(counts, key);
      Rebuild(now);
    }

    /**
     * The function `startTimer(labels)` returns, called `elapsed` thousandths
     * of a second after the start, as evidently intended: the duration is
     * observed on this histogram, on top of what it has counted already.
     */
    method StopTimer(now: int, elapsed: Milli, labels: Labels := [])
      requires Valid()
      modifies this, metric
      ensures Valid()
      ensures var key := Stringify(labels);
        && keys == ObservedKeys(old(keys), old(counters), key)
        && sums == ObservedSums(old(sums), key, elapsed)
        && counts == ObservedCounts(old(counts), key)
      ensures var key := Stringify(labels);
        counters == old(counters)[key := Bumped(Before(old(counters), buckets, key), buckets, elapsed)]
      ensures var key := Stringify(labels);
        && key in counters && counters == old(counters)[key := counters[key]]
        && (NoDuplicates(buckets) ==> forall b | b in buckets ::
              CountAt(counters[key], b)
              == CountAt(Before(old(counters), buckets, key), b) + (if elapsed <= b then 1 else 0))
      ensures metric.values == HistogramSamples(keys, counters, buckets, now)
    {
      ghost var before := Before(counters, buckets, Stringify(labels));
      Observe(now, elapsed, labels);
      if NoDuplicates(buckets) {
        ObserveBuckets(before, buckets, elapsed);
      }
    }

    /** The loop over `buckets` that updates one label set's counters. */
    method Tally(c0: map<Milli, int>, value: Milli) returns (c: map<Milli, int>)
      ensures c == Bumped(c0, buckets, value)
    {
      c := c0;
      var i := 0;
      while i < |buckets|
        invariant 0 <= i <= |buckets|
        invariant c == Bumped(c0, buckets[..i], value)
      {
        var b := buckets[i];
        BumpedStep(c0, buckets[..i], b, value);
        assert buckets[..i + 1] == buckets[..i] + [b];
        if value <= b {
          c := c[b := CountAt(c, b) + 1];
        }
        i := i + 1;
      }
      assert buckets[..i] == buckets;
    }

    /** The series one label key contributes: its buckets in map order, then `+Inf`. */
    method SeriesFor(lk: string, bc: map<Milli, int>, now: int) returns (block: seq<Sample>)
      ensures block == SeriesSamples(KeyLabels(lk), bc, buckets, now)
    {
      var parsed := KeyLabels(lk);
      var order := Distinct(buckets);
      block := [];
      var n := 0;
      while n < |order|
        invariant 0 <= n <= |order|
        invariant block == BucketSamples(parsed, bc, order[..n], now)
      {
        BucketSamplesSnoc(parsed, bc, order, now, n);
        block := block + [Sample(CountAt(bc, order[n]), WithLe(parsed, NumText(order[n])), now)];
        n := n + 1;
      }
      assert order[..n] == order;
      block := block + [Sample(InfValue(bc, buckets), WithLe(parsed, "+Inf"), now)];
    }

    /** The loop that rewrites `metric.values` from the maps. */
    method Rebuild(now: int)
      requires forall k | k in keys :: k in counters
      modifies metric
      ensures metric.values == HistogramSamples(keys, counters, buckets, now)
    {
      metric.values := [];
      var j := 0;
      while j < |keys|
        invariant 0 <= j <= |keys|
        invariant metric.values == HistogramSamples(keys[..j], counters, buckets, now)
      {
        var lk := keys[j];
        assert lk in counters;
        var block := SeriesFor(lk, counters[lk], now);
        HistogramSnoc(keys, counters, buckets, now, j);
        metric.values := metric.values + block;
        j := j + 1;
      }
      assert keys[..j] == keys;
    }
  }

  /**
   * The outcome of the find-or-create for `full`: a metric already registered
   * under that name comes back as it is, whatever its help and type, and the
   * registry is unchanged; otherwise `m` is a new, empty metric with this help
   * and type, registered last.
   */
  predicate Obtained(before: seq<Metric>, after: seq<Metric>, m: Metric,
                     full: string, help: string, kind: MetricType)
    reads m
  {
    m.name == full &&
    match Named(before, full)
    case Some(existing) => m == existing && after == before
    case None => after == before + [m] && m.help == help && m.kind == kind && m.values == []
  }

  /** `MetricsRegistry`: the metrics in registration order (a `Map` keyed by full name). */
  class Registry {
    const service: string
    var metrics: seq<Metric>

    /** Registered names are distinct (they are the keys of a `Map`). */
    ghost predicate Valid()
      reads this
    {
      forall i, j | 0 <= i < j < |metrics| :: metrics[i].name != metrics[j].name
    }

    constructor (service: string)
      ensures this.service == service && metrics == []
      ensures Valid()
    {
      this.service := service;
      metrics := [];
    }

    function Lookup(full: string): Option<Metric>
      reads this
    {
      Named(metrics, full)
    }

    /** What `export` reads: every metric's name, help, type and series, in order. */
    function Snapshot(): seq<MetricData>
      reads this, metrics
    {
      Snapshots(metrics)
    }

    /**
     * The find-or-create shared by `counter`, `gauge` and `histogram`: a name
     * already registered returns its metric as it is (whatever its type),
     * otherwise a new empty metric is registered last.
     */
    method Obtain(name: string, help: string, kind: MetricType) returns (m: Metric)
      requires Valid()
      modifies this
      ensures Valid()
      ensures Obtained(old(metrics), metrics, m, FullName(service, name), help, kind)
      ensures old(Lookup(FullName(service, name))).None? ==> fresh(m)
    {
      var fullName := FullName(service, name);
      match Named(metrics, fullName)
      case Some(existing) =>
        m := existing;
      case None =>
        m := new Metric(fullName, help, kind);
        metrics := metrics + [m];
    }

    /** `counter(name, help)`. */
    method Counter(name: string, help: string) returns (h: CounterHandle)
      requires Valid()
      modifies this
      ensures Valid() && fresh(h)
      ensures Obtained(old(metrics), metrics, h.metric, FullName(service, name), help, MetricType.Counter)
      ensures old(Lookup(FullName(service, name))).None? ==> fresh(h.metric)
    {
      var m := Obtain(name, help, MetricType.Counter);
      h := new CounterHandle(m);
    }

    /** `gauge(name, help)`. */
    method Gauge(name: string, help: string) returns (h: GaugeHandle)
      requires Valid()
      modifies this
      ensures Valid() && fresh(h)
      ensures Obtained(old(metrics), metrics, h.metric, FullName(service, name), help, MetricType.Gauge)
      ensures old(Lookup(FullName(service, name))).None? ==> fresh(h.metric)
    {
      var m := Obtain(name, help, MetricType.Gauge);
      h := new GaugeHandle(m);
    }

    /** `histogram(name, help, buckets = [0.005, ..., 10])`: new, empty maps on every call. */
    method Histogram(name: string, help: string, buckets: seq<Milli> := DefaultBuckets) returns (h: HistogramHandle)
      requires Valid()
      modifies this
      ensures Valid() && fresh(h) && h.Valid()
      ensures h.buckets == buckets && h.keys == [] && h.counters == map[]
      ensures Obtained(old(metrics), metrics, h.metric, FullName(service, name), help, MetricType.Histogram)
      ensures old(Lookup(FullName(service, name))).None? ==> fresh(h.metric)
    {
      var m := Obtain(name, help, MetricType.Histogram);
      h := new HistogramHandle(m, buckets);
    }

    /**
     * The function `startTimer(labels)` of the histogram `name` returns, as
     * written, called `elapsed` thousandths of a second after the start: it
     * observes through `histogram(name, help, buckets)`, a handle obtained
     * anew whose maps are empty, so the series it writes into the registered
     * metric hold this one observation, whatever was counted before.
     */
    method StopTimerAsWritten(name: string, help: string, buckets: seq<Milli>, now: int, elapsed: Milli,
                              labels: Labels) returns (h: HistogramHandle)
      requires Valid()
      modifies this, metrics
      ensures Valid() && fresh(h) && h.metric.name == FullName(service, name)
      ensures old(Lookup(FullName(service, name))).Some? ==>
        h.metric == old(Lookup(FullName(service, name))).value && metrics == old(metrics)
      ensures var key := Stringify(labels);
        h.metric.values == HistogramSamples([key], map[key := Bumped(Fresh(buckets), buckets, elapsed)], buckets, now)
    {
      h := Histogram(name, help, buckets);
      h.Observe(now, elapsed, labels);
    }

    /** `export()`: the Prometheus text of everything registered. */
    method Export() returns (text: string)
      ensures text == ExportText(Snapshot())
    {
      var ds := Snapshots(metrics);
      var lines: seq<string> := [];
      var i := 0;
      while i < |metrics|
        invariant 0 <= i <= |metrics|
        invariant lines == Lines(ds[..i])
      {
        var block := Block(metrics[i]);
        LinesSnoc(ds, i);
        lines := lines + block;
        i := i + 1;
      }
      assert ds[..i] == ds;
      text := Join(lines, "\n");
    }

    /** `reset()`: forget every metric. */
    method Reset()
      modifies this
      ensures metrics == [] && Valid()
      ensures ExportText(Snapshot()) == ""
    {
      metrics := [];
    }
  }

  /** The object `createMetrics` returns: the registry and the five default metrics. */
  datatype Toolkit = Toolkit(
    registry: Registry,
    httpRequestsTotal: CounterHandle,
    httpRequestDuration: HistogramHandle,
    httpRequestsInFlight: GaugeHandle,
    activeConnections: GaugeHandle,
    errorsTotal: CounterHandle)

  /** The short names `createMetrics` registers, in order. */
  const DefaultMetricNames: seq<string> := ["http_requests_total", "http_request_duration_seconds",
    "http_requests_in_flight", "active_connections", "errors_total"]

  /** Their help texts, in the same order. */
  const DefaultHelps: seq<string> := ["Total HTTP requests", "HTTP request duration in seconds",
    "Current HTTP requests being processed", "Number of active connections", "Total errors"]

  /** The five default names are distinct, so none of the registrations finds an earlier one. */
  lemma DefaultNamesDistinct()
    ensures forall i, j | 0 <= i < j < |DefaultMetricNames| :: DefaultMetricNames[i] != DefaultMetricNames[j]
  {
    var ns := DefaultMetricNames;
    forall i, j | 0 <= i < j < |ns| ensures ns[i] != ns[j] {
      assert ns[i][0] != ns[j][0] || ns[i][5] != ns[j][5] || |ns[i]| != |ns[j]|;
    }
  }

  /** A newly registered, still empty metric with this name, help and type. */
  predicate Empty(m: Metric, name: string, help: string, kind: MetricType)
    reads m
  {
    m.name == name && m.help == help && m.kind == kind && m.values == []
  }

  /**
   * The body of `createMetrics`: counter, histogram, gauge, gauge, counter
   * registered in this order on a new registry, for any five distinct names.
   */
  method RegisterDefaults(service: string, names: seq<string>, helps: seq<string>) returns (t: Toolkit)
    requires |names| == 5 && |helps| == 5
    requires forall i, j | 0 <= i < j < 5 :: names[i] != names[j]
    ensures fresh(t.registry) && t.registry.Valid() && t.registry.service == service
    ensures t.registry.metrics == [t.httpRequestsTotal.metric, t.httpRequestDuration.metric,
                                   t.httpRequestsInFlight.metric, t.activeConnections.metric,
                                   t.errorsTotal.metric]
    ensures Empty(t.httpRequestsTotal.metric, FullName(service, names[0]), helps[0], MetricType.Counter)
    ensures Empty(t.httpRequestDuration.metric, FullName(service, names[1]), helps[1], MetricType.Histogram)
    ensures Empty(t.httpRequestsInFlight.metric, FullName(service, names[2]), helps[2], MetricType.Gauge)
    ensures Empty(t.activeConnections.metric, FullName(service, names[3]), helps[3], MetricType.Gauge)
    ensures Empty(t.errorsTotal.metric, FullName(service, names[4]), helps[4], MetricType.Counter)
    ensures t.httpRequestDuration.buckets == DefaultBuckets && t.httpRequestDuration.Valid()
    ensures fresh(t.httpRequestDuration)
  {
    var registry := new Registry(service);
    var total := registry.Counter(names[0], helps[0]);
    assert Named([total.metric], FullName(service, names[1])).None? by {
      FullNameInjective(service, names[0], names[1]);
    }
    var duration := registry.Histogram(names[1], helps[1]);
    assert Named([total.metric, duration.metric], FullName(service, names[2])).None? by {
      FullNameInjective(service, names[0], names[2]);
      FullNameInjective(service, names[1], names[2]);
    }
    var inFlight := registry.Gauge(names[2], helps[2]);
    assert Named([total.metric, duration.metric, inFlight.metric], FullName(service, names[3])).None? by {
      FullNameInjective(service, names[0], names[3]);
      FullNameInjective(service, names[1], names[3]);
      FullNameInjective(service, names[2], names[3]);
    }
    var active := registry.Gauge(names[3], helps[3]);
    assert Named([total.metric, duration.metric, inFlight.metric, active.metric], FullName(service, names[4])).None? by {
      FullNameInjective(service, names[0], names[4]);
      FullNameInjective(service, names[1], names[4]);
      FullNameInjective(service, names[2], names[4]);
      FullNameInjective(service, names[3], names[4]);
    }
    var errors := registry.Counter(names[4], helps[4]);
    t := Toolkit(registry, total, duration, inFlight, active, errors);
  }

  /** `createMetrics(service)`: a new registry holding the five default metrics, in this order. */
  method CreateMetrics(service: string) returns (t: Toolkit)
    ensures fresh(t.registry) && t.registry.Valid() && t.registry.service == service
    ensures t.registry.metrics == [t.httpRequestsTotal.metric, t.httpRequestDuration.metric,
                                   t.httpRequestsInFlight.metric, t.activeConnections.metric,
                                   t.errorsTotal.metric]
    ensures Empty(t.httpRequestsTotal.metric, FullName(service, "http_requests_total"),
                  "Total HTTP requests", MetricType.Counter)
    ensures Empty(t.httpRequestDuration.metric, FullName(service, "http_request_duration_seconds"),
                  "HTTP request duration in seconds", MetricType.Histogram)
    ensures Empty(t.httpRequestsInFlight.metric, FullName(service, "http_requests_in_flight"),
                  "Current HTTP requests being processed", MetricType.Gauge)
    ensures Empty(t.activeConnections.metric, FullName(service, "active_connections"),
                  "Number of active connections", MetricType.Gauge)
    ensures Empty(t.errorsTotal.metric, FullName(service, "errors_total"),
                  "Total errors", MetricType.Counter)
    ensures t.httpRequestDuration.buckets == DefaultBuckets && t.httpRequestDuration.Valid()
    ensures fresh(t.httpRequestDuration)
  {
    DefaultNamesDistinct();
    t := RegisterDefaults(service, DefaultMetricNames, DefaultHelps);
  }
}
