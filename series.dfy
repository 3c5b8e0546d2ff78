/**
 * The series of one metric (`metric.values` in the registry) and the pure
 * effect of each handle operation on them.
 *
 * A series is identified by its label set, compared as the source does, by
 * `JSON.stringify(v.labels) === JSON.stringify(labels)`; by
 * `Json.StringifyInjective` that is equality of the key/value sequences in
 * property order, so `{a:"1",b:"2"}` and `{b:"2",a:"1"}` are two series.
 */
module MetricSeries {
  import opened Wrappers
  import opened Text
  import opened Json

  /** One entry of `metric.values`: `{ value, labels, timestamp }`. */
  datatype Sample = Sample(value: Milli, labels: Labels, timestamp: int)

  /**
   * `values.find(v => JSON.stringify(v.labels) === JSON.stringify(labels))`,
   * searching from index `from`, as the index of the entry found. The test
   * compares the label sets themselves: `Json.StringifyInjective` shows the two
   * comparisons agree.
   */
  function FindFrom(values: seq<Sample>, labels: Labels, from: nat): (r: Option<nat>)
    requires from <= |values|
    ensures r.Some? ==> from <= r.value < |values| && values[r.value].labels == labels
    ensures r.Some? ==> forall j | from <= j < r.value :: values[j].labels != labels
    ensures r.None? ==> forall j | from <= j < |values| :: values[j].labels != labels
    decreases |values| - from
  {
    if from == |values| then None
    else if values[from].labels == labels then Some(from)
    else FindFrom(values, labels, from + 1)
  }

  /** The index of the (first) series with exactly these labels. */
  function FindSeries(values: seq<Sample>, labels: Labels): Option<nat> {
    FindFrom(values, labels, 0)
  }

  /** The value of the series with these labels, if it exists. */
  function ValueOf(values: seq<Sample>, labels: Labels): Option<Milli> {
    match FindSeries(values, labels)
    case Some(i) => Some(values[i].value)
    case None => None
  }

  /** No two series share a label set. */
  predicate DistinctSeries(values: seq<Sample>) {
    forall i, j | 0 <= i < j < |values| :: values[i].labels != values[j].labels
  }

  /**
   * Counter `inc` and gauge `inc`: `existing.value += delta` on the series of
   * `labels`, otherwise a new series holding `delta` is pushed.
   */
  function Added(values: seq<Sample>, labels: Labels, delta: Milli, now: int): seq<Sample> {
    match FindSeries(values, labels)
    case Some(i) => values[i := Sample(values[i].value + delta, values[i].labels, now)]
    case None => values + [Sample(delta, labels, now)]
  }

  /** Gauge `set`: `existing.value = v`, otherwise a new series holding `v`. */
  function Assigned(values: seq<Sample>, labels: Labels, v: Milli, now: int): seq<Sample> {
    match FindSeries(values, labels)
    case Some(i) => values[i := Sample(v, values[i].labels, now)]
    case None => values + [Sample(v, labels, now)]
  }

  /** Gauge `dec`: `existing.value -= delta`, otherwise a new series holding `-delta`. */
  function Subtracted(values: seq<Sample>, labels: Labels, delta: Milli, now: int): seq<Sample> {
    match FindSeries(values, labels)
    case Some(i) => values[i := Sample(values[i].value - delta, values[i].labels, now)]
    case None => values + [Sample(-delta, labels, now)]
  }

  // ----------------------------------------------------------------- lemmas

  /** The lookup only looks at the label sets. */
  lemma {:induction false} FindSameLabels(a: seq<Sample>, b: seq<Sample>, labels: Labels, from: nat)
    requires |a| == |b| && from <= |a|
    requires forall j | 0 <= j < |a| :: a[j].labels == b[j].labels
    ensures FindFrom(a, labels, from) == FindFrom(b, labels, from)
    decreases |a| - from
  {
    if from < |a| {
      FindSameLabels(a, b, labels, from + 1);
    }
  }

  /** Looking up in a list with one more series at the end. */
  lemma {:induction false} FindAppended(values: seq<Sample>, s: Sample, labels: Labels, from: nat)
    requires from <= |values|
    ensures FindFrom(values + [s], labels, from)
         == if FindFrom(values, labels, from).Some? then FindFrom(values, labels, from)
            else if s.labels == labels then Some(|values|) else None
    decreases |values| - from
  {
    var vs := values + [s];
    if from < |values| {
      assert vs[from] == values[from];
      FindAppended(values, s, labels, from + 1);
    } else {
      assert vs[from] == s;
      assert from + 1 == |vs|;
    }
  }

  /** Replacing the entry of a series by one with the same labels keeps every lookup. */
  lemma FindAfterUpdate(values: seq<Sample>, i: nat, s: Sample, labels: Labels)
    requires i < |values| && s.labels == values[i].labels
    ensures FindSeries(values[i := s], labels) == FindSeries(values, labels)
  {
    FindSameLabels(values[i := s], values, labels, 0);
  }

  /** Updating the entry at `i` in place: only the lookup of its own labels sees the change. */
  lemma UpdatedValue(values: seq<Sample>, i: nat, s: Sample, other: Labels)
    requires i < |values| && s.labels == values[i].labels
    requires FindSeries(values, s.labels) == Some(i)
    ensures ValueOf(values[i := s], other)
         == if other == values[i].labels then Some(s.value) else ValueOf(values, other)
  {
    var r := values[i := s];
    FindAfterUpdate(values, i, s, other);
    if FindSeries(values, other).Some? {
      var k := FindSeries(values, other).value;
      assert values[k].labels == other;
      assert k == i <==> other == values[i].labels;
      assert r[k] == if k == i then s else values[k];
    }
  }

  /**
   * Find-or-append behaves like a map from label sets to numbers: the series
   * of `labels` gains `delta` (starting from nothing when it did not exist) and
   * every other series keeps its value.
   */
  lemma AddedValue(values: seq<Sample>, labels: Labels, delta: Milli, now: int, other: Labels)
    ensures ValueOf(Added(values, labels, delta, now), other)
         == if other == labels then Some(ValueOf(values, labels).GetOr(0) + delta)
            else ValueOf(values, other)
  {
    var r := Added(values, labels, delta, now);
    var want := if other == labels then Some(ValueOf(values, labels).GetOr(0) + delta)
                else ValueOf(values, other);
    if FindSeries(values, labels).Some? {
      var i := FindSeries(values, labels).value;
      var s := Sample(values[i].value + delta, values[i].labels, now);
      assert r == values[i := s];
      assert ValueOf(values[i := s], other) == want by {
        UpdatedValue(values, i, s, other);
      }
    } else {
      var s := Sample(delta, labels, now);
      assert r == values + [s];
      assert ValueOf(values + [s], other) == want by {
        FindAppended(values, s, other, 0);
      }
    }
  }

  /** `set` makes the series of `labels` hold `v` and leaves every other series alone. */
  lemma AssignedValue(values: seq<Sample>, labels: Labels, v: Milli, now: int, other: Labels)
    ensures ValueOf(Assigned(values, labels, v, now), other)
         == if other == labels then Some(v) else ValueOf(values, other)
  {
    match FindSeries(values, labels)
    case Some(i) =>
      UpdatedValue(values, i, Sample(v, values[i].labels, now), other);
    case None =>
      FindAppended(values, Sample(v, labels, now), other, 0);
  }

  /** `dec(labels, d)` is `inc(labels, -d)`, including on a fresh series (`-value`). */
  lemma SubtractedIsAddedNegated(values: seq<Sample>, labels: Labels, delta: Milli, now: int)
    ensures Subtracted(values, labels, delta, now) == Added(values, labels, -delta, now)
  {
  }

  /**
   * On a series that already exists, `inc` changes that entry only; on a label
   * set not seen before it appends exactly one series holding `delta`.
   */
  lemma AddedShape(values: seq<Sample>, labels: Labels, delta: Milli, now: int)
    ensures var r := Added(values, labels, delta, now);
      match FindSeries(values, labels)
      case Some(i) =>
        |r| == |values| && r[i].value == values[i].value + delta && r[i].labels == labels
        && forall j | 0 <= j < |values| && j != i :: r[j] == values[j]
      case None =>
        r == values + [Sample(delta, labels, now)]
  {
  }

  /** Find-or-append never creates a second series for one label set. */
  lemma AddedKeepsDistinct(values: seq<Sample>, labels: Labels, delta: Milli, now: int)
    requires DistinctSeries(values)
    ensures DistinctSeries(Added(values, labels, delta, now))
    ensures DistinctSeries(Assigned(values, labels, delta, now))
    ensures DistinctSeries(Subtracted(values, labels, delta, now))
  {
  }

  /** With non-negative increments a counter series never decreases and never disappears. */
  lemma CounterMonotone(values: seq<Sample>, labels: Labels, delta: Milli, now: int, other: Labels)
    requires delta >= 0
    ensures ValueOf(values, other).Some? ==>
      ValueOf(Added(values, labels, delta, now), other).Some? &&
      ValueOf(values, other).value <= ValueOf(Added(values, labels, delta, now), other).value
  {
    AddedValue(values, labels, delta, now, other);
  }

  /**
   * Gauge `inc` then `dec` by the same amount restores the value (a series
   * that did not exist is left holding 0).
   */
  lemma IncThenDecRestores(values: seq<Sample>, labels: Labels, delta: Milli, t1: int, t2: int)
    ensures ValueOf(Subtracted(Added(values, labels, delta, t1), labels, delta, t2), labels)
         == Some(ValueOf(values, labels).GetOr(0))
  {
    var mid := Added(values, labels, delta, t1);
    AddedValue(values, labels, delta, t1, labels);
    SubtractedIsAddedNegated(mid, labels, delta, t2);
    AddedValue(mid, labels, -delta, t2, labels);
  }

  /** `{a:"1", b:"2"}` and `{b:"2", a:"1"}` name two different series. */
  lemma ReorderedLabelsAreDistinct(values: seq<Sample>, now: int)
    ensures var ab, ba := [("a", "1"), ("b", "2")], [("b", "2"), ("a", "1")];
      var after := Added(Added([], ab, 1000, now), ba, 1000, now);
      |after| == 2 && ValueOf(after, ab) == Some(1000) && ValueOf(after, ba) == Some(1000)
  {
    var ab, ba := [("a", "1"), ("b", "2")], [("b", "2"), ("a", "1")];
    assert ab != ba by { assert ab[0] != ba[0]; }
    var one := Added([], ab, 1000, now);
    AddedValue([], ab, 1000, now, ab);
    AddedValue(one, ba, 1000, now, ab);
    AddedValue(one, ba, 1000, now, ba);
    AddedValue([], ab, 1000, now, ba);
    assert FindSeries(one, ba).None?;
  }
}
