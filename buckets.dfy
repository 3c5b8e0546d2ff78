/**
 * The histogram bookkeeping of `MetricsRegistry.histogram`: per label set a
 * map from bucket boundary to count, the effect of one observation on it, and
 * the series that `observe` writes back into `metric.values`.
 */
module Buckets {
  import opened Wrappers
  import opened Text
  import opened Records
  import opened Json
  import opened MetricSeries

  /** The default boundaries 0.005, 0.01, ..., 10 seconds, in thousandths. */
  const DefaultBuckets: seq<Milli> := [5, 10, 25, 50, 100, 250, 500, 1000, 2500, 5000, 10000]

  predicate NoDuplicates<T(==)>(s: seq<T>) {
    forall i, j | 0 <= i < j < |s| :: s[i] != s[j]
  }

  predicate StrictlyAscending(bs: seq<Milli>) {
    forall i, j | 0 <= i < j < |bs| :: bs[i] < bs[j]
  }

  /**
   * The keys of `new Map(buckets.map(b => [b, 0]))` in their iteration
   * order: each boundary once, where it first occurs.
   */
  function Distinct(bs: seq<Milli>): (d: seq<Milli>)
    ensures NoDuplicates(d)
    ensures forall b :: b in d <==> b in bs
    ensures NoDuplicates(bs) ==> d == bs
  {
    if bs == [] then []
    else
      var d := Distinct(bs[..|bs| - 1]);
      var last := bs[|bs| - 1];
      assert forall b :: b in bs <==> b in bs[..|bs| - 1] || b == last by {
        assert bs == bs[..|bs| - 1] + [last];
      }
      if last in d then d else d + [last]
  }

  /** `bc.get(b) || 0`. */
  function CountAt(c: map<Milli, int>, b: Milli): int {
    if b in c then c[b] else 0
  }

  /** The counters of a label set seen for the first time: every boundary at 0. */
  function Fresh(bs: seq<Milli>): map<Milli, int> {
    map b | b in bs :: 0
  }

  /**
   * The counters after the update loop of `observe(v)` has visited the
   * boundaries `bs`: each boundary `b >= v` gains one per occurrence of `b`
   * in `bs`, the others are untouched.
   */
  function Bumped(c: map<Milli, int>, bs: seq<Milli>, v: Milli): map<Milli, int> {
    map b | b in c.Keys + (set x | x in bs && v <= x) ::
      CountAt(c, b) + (if v <= b then multiset(bs)[b] else 0)
  }

  /** The count carried by the `le="+Inf"` series: that of the LAST boundary listed. */
  function InfValue(c: map<Milli, int>, bs: seq<Milli>): int {
    if bs == [] then 0 else CountAt(c, bs[|bs| - 1])
  }

  /** `{ ...parsedLabels, le }`. */
  function WithLe(labels: Labels, le: string): Labels {
    Spread(labels, [("le", le)])
  }

  /** One `le="<bucket>"` series per boundary, in the counter map's order. */
  function BucketSamples(labels: Labels, c: map<Milli, int>, order: seq<Milli>, now: int): (r: seq<Sample>)
    ensures |r| == |order|
    ensures forall i | 0 <= i < |order| ::
      r[i] == Sample(CountAt(c, order[i]), WithLe(labels, NumText(order[i])), now)
  {
    seq(|order|, i requires 0 <= i < |order| =>
      Sample(CountAt(c, order[i]), WithLe(labels, NumText(order[i])), now))
  }

  /** All series `observe` writes for one label set: the buckets, then `+Inf`. */
  function SeriesSamples(labels: Labels, c: map<Milli, int>, bs: seq<Milli>, now: int): seq<Sample> {
    BucketSamples(labels, c, Distinct(bs), now) + [Sample(InfValue(c, bs), WithLe(labels, "+Inf"), now)]
  }

  /** `JSON.parse(labelKey)`. */
  function KeyLabels(key: string): Labels {
    ParseLabels(key).GetOr([])
  }

  /** `metric.values` as rebuilt from the label keys `keys` (in the maps' order). */
  function HistogramSamples(keys: seq<string>, counters: map<string, map<Milli, int>>,
                            bs: seq<Milli>, now: int): seq<Sample>
  {
    if keys == [] then []
    else
      var k := keys[|keys| - 1];
      HistogramSamples(keys[..|keys| - 1], counters, bs, now)
        + SeriesSamples(KeyLabels(k), if k in counters then counters[k] else map[], bs, now)
  }

  /** `keys` lists each key of the counter map exactly once. */
  ghost predicate KeyOrder(keys: seq<string>, counters: map<string, map<Milli, int>>) {
    NoDuplicates(keys) && forall k :: k in counters <==> k in keys
  }

  /** Every label key is the text of a label set, and holds a counter for each boundary. */
  ghost predicate KeyShapes(bs: seq<Milli>, counters: map<string, map<Milli, int>>) {
    forall k | k in counters :: ParseLabels(k).Some? && counters[k].Keys == set b | b in bs
  }

  /** With ascending boundaries, every label set's counts are cumulative and bounded by its total. */
  ghost predicate CountsOrdered(bs: seq<Milli>, counters: map<string, map<Milli, int>>, counts: map<string, int>) {
    StrictlyAscending(bs) ==>
      forall k | k in counters :: k in counts && Cumulative(counters[k], bs) && WithinCount(counters[k], bs, counts[k])
  }

  /**
   * What the closure of one histogram handle keeps true of its maps: the key
   * order, the shape of each entry and, with ascending boundaries, cumulative
   * counts.
   */
  ghost predicate ValidMaps(bs: seq<Milli>, keys: seq<string>, counters: map<string, map<Milli, int>>,
                            sums: map<string, Milli>, counts: map<string, int>)
  {
    KeyOrder(keys, counters)
    && sums.Keys == counters.Keys && counts.Keys == counters.Keys
    && KeyShapes(bs, counters)
    && CountsOrdered(bs, counters, counts)
  }

  /** The counters of `key` before an observation: fresh ones when the key is new. */
  function Before(counters: map<string, map<Milli, int>>, bs: seq<Milli>, key: string): map<Milli, int> {
    if key in counters then counters[key] else Fresh(bs)
  }

  /** The maps after `observe(v, labels)`, where `key` is `JSON.stringify(labels)`. */
  function ObservedKeys(keys: seq<string>, counters: map<string, map<Milli, int>>, key: string): seq<string> {
    if key in counters then keys else keys + [key]
  }

  function ObservedSums(sums: map<string, Milli>, key: string, v: Milli): map<string, Milli> {
    sums[key := (if key in sums then sums[key] else 0) + v]
  }

  function ObservedCounts(counts: map<string, int>, key: string): map<string, int> {
    counts[key := (if key in counts then counts[key] else 0) + 1]
  }

  lemma ObserveKeepsKeyOrder(keys: seq<string>, counters: map<string, map<Milli, int>>,
                             key: string, c: map<Milli, int>)
    requires KeyOrder(keys, counters)
    ensures KeyOrder(ObservedKeys(keys, counters, key), counters[key := c])
  {
    var keys' := ObservedKeys(keys, counters, key);
    if key !in counters {
      forall i, j | 0 <= i < j < |keys'| ensures keys'[i] != keys'[j] {
        if j == |keys| { assert keys'[i] == keys[i]; assert keys[i] in keys; }
      }
      forall k ensures k in counters[key := c] <==> k in keys' {
        assert k in keys' <==> k in keys || k == key;
      }
    }
  }

  lemma ObserveKeepsShapes(bs: seq<Milli>, counters: map<string, map<Milli, int>>, labels: Labels, v: Milli)
    requires KeyShapes(bs, counters)
    ensures var key := Stringify(labels);
      KeyShapes(bs, counters[key := Bumped(Before(counters, bs, key), bs, v)])
  {
    StringifyRoundTrip(labels);
  }

  lemma ObserveKeepsOrdered(bs: seq<Milli>, counters: map<string, map<Milli, int>>, counts: map<string, int>,
                            key: string, v: Milli)
    requires counts.Keys == counters.Keys
    requires CountsOrdered(bs, counters, counts)
    ensures CountsOrdered(bs, counters[key := Bumped(Before(counters, bs, key), bs, v)], ObservedCounts(counts, key))
  {
    if StrictlyAscending(bs) {
      var c0 := Before(counters, bs, key);
      var n0 := if key in counts then counts[key] else 0;
      var c1 := Bumped(c0, bs, v);
      var counters', counts' := counters[key := c1], ObservedCounts(counts, key);
      assert Cumulative(c1, bs) && WithinCount(c1, bs, n0 + 1) by {
        FreshIsEmpty(bs);
        ObserveKeepsCumulative(c0, bs, v, n0);
      }
      forall k | k in counters'
        ensures k in counts' && Cumulative(counters'[k], bs) && WithinCount(counters'[k], bs, counts'[k])
      {
        if k != key {
          assert counters'[k] == counters[k] && counts'[k] == counts[k];
        }
      }
    }
  }

  /** An observation keeps the maps valid. */
  lemma ObserveKeepsValid(bs: seq<Milli>, keys: seq<string>, counters: map<string, map<Milli, int>>,
                          sums: map<string, Milli>, counts: map<string, int>, labels: Labels, v: Milli)
    requires ValidMaps(bs, keys, counters, sums, counts)
    ensures var key := Stringify(labels);
      ValidMaps(bs, ObservedKeys(keys, counters, key),
                counters[key := Bumped(Before(counters, bs, key), bs, v)],
                ObservedSums(sums, key, v), ObservedCounts(counts, key))
  {
    var key := Stringify(labels);
    var c := Bumped(Before(counters, bs, key), bs, v);
    ObserveKeepsKeyOrder(keys, counters, key, c);
    ObserveKeepsShapes(bs, counters, labels, v);
    ObserveKeepsOrdered(bs, counters, counts, key, v);
  }

  // ----------------------------------------------------------------- lemmas

  /** One more label key visited by the rebuild loop. */
  lemma HistogramSnoc(keys: seq<string>, counters: map<string, map<Milli, int>>,
                      bs: seq<Milli>, now: int, j: nat)
    requires j < |keys| && keys[j] in counters
    ensures HistogramSamples(keys[..j + 1], counters, bs, now)
         == HistogramSamples(keys[..j], counters, bs, now)
            + SeriesSamples(KeyLabels(keys[j]), counters[keys[j]], bs, now)
  {
    assert keys[..j + 1][..j] == keys[..j];
  }

  /** One more boundary visited by the inner rebuild loop. */
  lemma BucketSamplesSnoc(labels: Labels, c: map<Milli, int>, order: seq<Milli>, now: int, n: nat)
    requires n < |order|
    ensures BucketSamples(labels, c, order[..n + 1], now)
         == BucketSamples(labels, c, order[..n], now)
            + [Sample(CountAt(c, order[n]), WithLe(labels, NumText(order[n])), now)]
  {
    var a, b := order[..n + 1], order[..n];
    assert a == b + [order[n]];
    var l := BucketSamples(labels, c, a, now);
    var r := BucketSamples(labels, c, b, now) + [Sample(CountAt(c, order[n]), WithLe(labels, NumText(order[n])), now)];
    assert |l| == |r|;
    forall i | 0 <= i < |l| ensures l[i] == r[i] {
      if i < n {
        assert a[i] == b[i];
      }
    }
  }

  /** Visiting no boundary changes nothing. */
  lemma BumpedNone(c: map<Milli, int>, v: Milli)
    ensures Bumped(c, [], v) == c
  {
  }

  /** One more iteration of the update loop: `counters.set(b, (counters.get(b) || 0) + 1)` when `v <= b`. */
  lemma BumpedStep(c: map<Milli, int>, bs: seq<Milli>, b: Milli, v: Milli)
    ensures Bumped(c, bs + [b], v)
         == var d := Bumped(c, bs, v);
            if v <= b then d[b := CountAt(d, b) + 1] else d
  {
    assert multiset(bs + [b]) == multiset(bs) + multiset{b};
    var d := Bumped(c, bs, v);
    var l, r := Bumped(c, bs + [b], v), if v <= b then d[b := CountAt(d, b) + 1] else d;
    assert l.Keys == r.Keys by {
      forall x ensures x in l.Keys <==> x in r.Keys {
        assert x in bs + [b] <==> x in bs || x == b;
      }
    }
    forall x | x in l.Keys ensures l[x] == r[x] {
      assert multiset(bs + [b])[x] == multiset(bs)[x] + (if x == b then 1 else 0);
    }
  }

  lemma {:induction false} OnceEach(bs: seq<Milli>, b: Milli)
    requires NoDuplicates(bs) && b in bs
    ensures multiset(bs)[b] == 1
    decreases |bs|
  {
    var last := bs[|bs| - 1];
    var init := bs[..|bs| - 1];
    assert bs == init + [last];
    assert multiset(bs) == multiset(init) + multiset{last};
    if b == last {
      assert b !in init by {
        forall i | 0 <= i < |init| ensures init[i] != b { assert init[i] == bs[i]; }
      }
    } else {
      assert b in init;
      OnceEach(init, b);
    }
  }

  /**
   * With distinct boundaries, `observe(v)` adds one to bucket `b` exactly when
   * `v <= b` and leaves the others alone.
   */
  lemma ObserveBucket(c: map<Milli, int>, bs: seq<Milli>, v: Milli, b: Milli)
    requires NoDuplicates(bs) && b in bs
    ensures CountAt(Bumped(c, bs, v), b) == CountAt(c, b) + (if v <= b then 1 else 0)
  {
    OnceEach(bs, b);
  }

  /** `ObserveBucket` for every listed boundary at once. */
  lemma ObserveBuckets(c: map<Milli, int>, bs: seq<Milli>, v: Milli)
    requires NoDuplicates(bs)
    ensures forall b | b in bs :: CountAt(Bumped(c, bs, v), b) == CountAt(c, b) + (if v <= b then 1 else 0)
  {
    forall b | b in bs
      ensures CountAt(Bumped(c, bs, v), b) == CountAt(c, b) + (if v <= b then 1 else 0)
    {
      ObserveBucket(c, bs, v, b);
    }
  }

  /** A boundary that is not listed is never touched. */
  lemma ObserveUnlisted(c: map<Milli, int>, bs: seq<Milli>, v: Milli, b: Milli)
    requires b !in bs
    ensures CountAt(Bumped(c, bs, v), b) == CountAt(c, b)
  {
  }

  /** Counts never decrease from one boundary to the next. */
  predicate Cumulative(c: map<Milli, int>, bs: seq<Milli>) {
    forall i, j | 0 <= i < j < |bs| :: CountAt(c, bs[i]) <= CountAt(c, bs[j])
  }

  /** No bucket counts more observations than the label set's total. */
  predicate WithinCount(c: map<Milli, int>, bs: seq<Milli>, count: int) {
    forall b | b in bs :: 0 <= CountAt(c, b) <= count
  }

  /** With ascending boundaries the buckets stay cumulative and within the count. */
  lemma ObserveKeepsCumulative(c: map<Milli, int>, bs: seq<Milli>, v: Milli, count: int)
    requires StrictlyAscending(bs)
    requires Cumulative(c, bs) && WithinCount(c, bs, count)
    ensures Cumulative(Bumped(c, bs, v), bs)
    ensures WithinCount(Bumped(c, bs, v), bs, count + 1)
  {
    var d := Bumped(c, bs, v);
    assert NoDuplicates(bs);
    forall i, j | 0 <= i < j < |bs| ensures CountAt(d, bs[i]) <= CountAt(d, bs[j]) {
      ObserveBucket(c, bs, v, bs[i]);
      ObserveBucket(c, bs, v, bs[j]);
    }
    forall b | b in bs ensures 0 <= CountAt(d, b) <= count + 1 {
      ObserveBucket(c, bs, v, b);
    }
  }

  /** A fresh label set starts cumulative with nothing counted. */
  lemma FreshIsEmpty(bs: seq<Milli>)
    ensures Cumulative(Fresh(bs), bs) && WithinCount(Fresh(bs), bs, 0)
  {
  }

  /**
   * Each label set contributes one series per distinct boundary plus one; the
   * last is `le="+Inf"` and carries the last boundary's count.
   */
  lemma SeriesShape(labels: Labels, c: map<Milli, int>, bs: seq<Milli>, now: int)
    ensures var s := SeriesSamples(labels, c, bs, now);
      |s| == |Distinct(bs)| + 1
      && s[|s| - 1] == Sample(InfValue(c, bs), WithLe(labels, "+Inf"), now)
    ensures NoDuplicates(bs) ==> |SeriesSamples(labels, c, bs, now)| == |bs| + 1
  {
  }

  /** `metric.values` holds (distinct boundaries + 1) series for every label set seen. */
  lemma {:induction false} HistogramCount(keys: seq<string>, counters: map<string, map<Milli, int>>,
                                          bs: seq<Milli>, now: int)
    ensures |HistogramSamples(keys, counters, bs, now)| == |keys| * (|Distinct(bs)| + 1)
    decreases |keys|
  {
    if keys != [] {
      var init, k := keys[..|keys| - 1], keys[|keys| - 1];
      var n := |Distinct(bs)| + 1;
      HistogramCount(init, counters, bs, now);
      var s := SeriesSamples(KeyLabels(k), if k in counters then counters[k] else map[], bs, now);
      SeriesShape(KeyLabels(k), if k in counters then counters[k] else map[], bs, now);
      assert HistogramSamples(keys, counters, bs, now) == HistogramSamples(init, counters, bs, now) + s;
      assert |init| * n + n == |keys| * n by {
        assert |keys| == |init| + 1;
        assert (|init| + 1) * n == |init| * n + n;
      }
    }
  }

  /**
   * The `+Inf` series is not the total count: one observation of 20 seconds
   * with the default boundaries leaves every bucket, and so `+Inf`, at 0.
   */
  lemma InfMissesLargeObservations()
    ensures var c := Bumped(Fresh(DefaultBuckets), DefaultBuckets, 20000);
      InfValue(c, DefaultBuckets) == 0
  {
    var c := Bumped(Fresh(DefaultBuckets), DefaultBuckets, 20000);
    assert 10000 in DefaultBuckets;
    assert DefaultBuckets[|DefaultBuckets| - 1] == 10000;
    assert c[10000] == 0;
  }

  /**
   * Two observations of 0 s on the single boundary 1 s, then a third: counted
   * on the handle's own maps the `+Inf` series reads 3; counted on maps that
   * start empty, as those of a handle obtained anew, it reads 1.
   */
  lemma TimerDropsEarlierCounts()
    ensures var bs := [1000];
      var earlier := Bumped(Bumped(Fresh(bs), bs, 0), bs, 0);
      InfValue(Bumped(earlier, bs, 0), bs) == 3 && InfValue(Bumped(Fresh(bs), bs, 0), bs) == 1
  {
    var bs := [1000];
    assert NoDuplicates(bs) && 1000 in bs;
    assert CountAt(Fresh(bs), 1000) == 0;
    ObserveBucket(Fresh(bs), bs, 0, 1000);
    ObserveBucket(Bumped(Fresh(bs), bs, 0), bs, 0, 1000);
    ObserveBucket(Bumped(Bumped(Fresh(bs), bs, 0), bs, 0), bs, 0, 1000);
  }

  /** The `le` label of a series is its boundary, written as `String(b)`. */
  lemma LeLabel(labels: Labels, le: string)
    ensures Get(WithLe(labels, le), "le") == Some(le)
    ensures forall k | k != "le" :: Get(WithLe(labels, le), k) == Get(labels, k)
  {
    forall k {
      SpreadGet(labels, [("le", le)], k);
    }
  }
}
