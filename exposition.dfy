/**
 * The Prometheus text that `MetricsRegistry.export` writes, as a function of
 * what the registry holds, and the properties of that text.
 */
module Exposition {
  import opened Text
  import opened Json
  import opened MetricSeries

  datatype MetricType = Counter | Gauge | Histogram

  /** The `type` string stored with each metric. */
  function TypeName(t: MetricType): string {
    match t
    case Counter => "counter"
    case Gauge => "gauge"
    case Histogram => "histogram"
  }

  /** What `export` reads of one registered metric. */
  datatype MetricData = MetricData(name: string, help: string, kind: MetricType, values: seq<Sample>)

  /** `${k}="${v}"` for one label (values are written without escaping). */
  function Pair(p: (string, string)): string {
    p.0 + "=\"" + p.1 + "\""
  }

  /** `Object.entries(labels).map(...)`: one `k="v"` text per label, in order. */
  function Pairs(l: Labels): (r: seq<string>)
    ensures |r| == |l| && forall i | 0 <= i < |l| :: r[i] == Pair(l[i])
  {
    seq(|l|, i requires 0 <= i < |l| => Pair(l[i]))
  }

  /** The label pairs of a series, comma separated, in property order. */
  function LabelText(l: Labels): string {
    Join(Pairs(l), ",")
  }

  /** `{...}` around the label text, or nothing when that text is empty. */
  function Suffix(l: Labels): string {
    var t := LabelText(l);
    if t == "" then "" else "{" + t + "}"
  }

  /** The line of one series: `name{k="v",...} value`. */
  function SampleLine(name: string, s: Sample): string {
    name + Suffix(s.labels) + " " + NumText(s.value)
  }

  /** One line per series, in the order of `metric.values`. */
  function SeriesLines(name: string, values: seq<Sample>): (r: seq<string>)
    ensures |r| == |values| && forall i | 0 <= i < |values| :: r[i] == SampleLine(name, values[i])
  {
    seq(|values|, i requires 0 <= i < |values| => SampleLine(name, values[i]))
  }

  /** The HELP and TYPE lines of one metric followed by one line per series. */
  function MetricLines(d: MetricData): seq<string> {
    ["# HELP " + d.name + " " + d.help, "# TYPE " + d.name + " " + TypeName(d.kind)]
      + SeriesLines(d.name, d.values)
  }

  /** The `lines` array after the loop has visited the metrics `ds` in order. */
  function Lines(ds: seq<MetricData>): seq<string> {
    if ds == [] then [] else MetricLines(ds[0]) + Lines(ds[1..])
  }

  /** `lines.join('\n')`. */
  function ExportText(ds: seq<MetricData>): string {
    Join(Lines(ds), "\n")
  }

  /** `text.split('\n')`. */
  function SplitLines(s: string): (r: seq<string>)
    ensures |r| >= 1
    decreases |s|
  {
    if s == [] then [""]
    else if s[0] == '\n' then [""] + SplitLines(s[1..])
    else
      var r := SplitLines(s[1..]);
      [[s[0]] + r[0]] + r[1..]
  }

  // ----------------------------------------------------------------- lemmas

  /** An empty registry exports the empty string. */
  lemma ExpositionOfNothing()
    ensures ExportText([]) == ""
  {
  }

  /** The label suffix is absent exactly when the series has no labels. */
  lemma SuffixEmpty(l: Labels)
    ensures Suffix(l) == "" <==> l == []
    ensures l != [] ==> Suffix(l) == "{" + LabelText(l) + "}"
  {
    var parts := Pairs(l);
    if l != [] {
      assert |Pair(l[0])| >= 3;
      if |parts| > 1 {
        assert Join(parts, ",") == parts[0] + "," + Join(parts[1..], ",");
      }
      assert |Join(parts, ",")| >= |parts[0]|;
    }
  }

  /** The line of a series without labels is `name value`. */
  lemma UnlabelledLine(name: string, s: Sample)
    ensures s.labels == [] ==> SampleLine(name, s) == name + " " + NumText(s.value)
    ensures s.labels != [] ==> SampleLine(name, s) == name + "{" + LabelText(s.labels) + "} " + NumText(s.value)
  {
    SuffixEmpty(s.labels);
  }

  /** Export is the concatenation, in registry order, of the per-metric blocks. */
  lemma {:induction false} LinesConcat(a: seq<MetricData>, b: seq<MetricData>)
    ensures Lines(a + b) == Lines(a) + Lines(b)
    decreases |a|
  {
    if a == [] {
      assert a + b == b;
    } else {
      assert (a + b)[0] == a[0];
      assert (a + b)[1..] == a[1..] + b;
      LinesConcat(a[1..], b);
    }
  }

  /** One more metric visited by the export loop. */
  lemma LinesSnoc(ds: seq<MetricData>, i: nat)
    requires i < |ds|
    ensures Lines(ds[..i + 1]) == Lines(ds[..i]) + MetricLines(ds[i])
  {
    LinesConcat(ds[..i], [ds[i]]);
    assert ds[..i + 1] == ds[..i] + [ds[i]];
    LinesOfOne(ds[i]);
  }

  /** One more series visited by the inner export loop. */
  lemma SeriesLinesSnoc(name: string, vs: seq<Sample>, j: nat)
    requires j < |vs|
    ensures SeriesLines(name, vs[..j + 1]) == SeriesLines(name, vs[..j]) + [SampleLine(name, vs[j])]
  {
    var a, b := vs[..j + 1], vs[..j];
    assert a == b + [vs[j]];
    var l, r := SeriesLines(name, a), SeriesLines(name, b) + [SampleLine(name, vs[j])];
    assert |l| == |r|;
    forall i | 0 <= i < |l| ensures l[i] == r[i] {
      if i < j {
        assert a[i] == b[i];
      }
    }
  }

  /** One metric contributes its HELP line, its TYPE line and one line per series. */
  lemma LinesOfOne(d: MetricData)
    ensures Lines([d]) == MetricLines(d)
    ensures |Lines([d])| == 2 + |d.values|
  {
    assert [d][1..] == [];
  }

  // -------------------------------------------- the lines can be read back

  predicate NoNewline(s: string) {
    '\n' !in s
  }

  /** Every name, help text and label of the metrics is free of line breaks. */
  predicate SingleLine(ds: seq<MetricData>) {
    forall k | 0 <= k < |ds| ::
      NoNewline(ds[k].name) && NoNewline(ds[k].help) &&
      forall j | 0 <= j < |ds[k].values| ::
        forall p | p in ds[k].values[j].labels :: NoNewline(p.0) && NoNewline(p.1)
  }

  lemma {:induction false} SplitSingle(a: string)
    requires NoNewline(a)
    ensures SplitLines(a) == [a]
    decreases |a|
  {
    if a != [] {
      SplitSingle(a[1..]);
      assert [a[0]] + a[1..] == a;
    }
  }

  lemma {:induction false} SplitFirst(a: string, b: string)
    requires NoNewline(a)
    ensures SplitLines(a + "\n" + b) == [a] + SplitLines(b)
    decreases |a|
  {
    var s := a + "\n" + b;
    if a == [] {
      assert s[1..] == b;
    } else {
      assert s[1..] == a[1..] + "\n" + b;
      SplitFirst(a[1..], b);
      assert [a[0]] + a[1..] == a;
    }
  }

  /** Splitting the joined lines at '\n' gives the lines back when none contains '\n'. */
  lemma {:induction false} SplitJoin(lines: seq<string>)
    requires lines != []
    requires forall i | 0 <= i < |lines| :: NoNewline(lines[i])
    ensures SplitLines(Join(lines, "\n")) == lines
    decreases |lines|
  {
    if |lines| == 1 {
      SplitSingle(lines[0]);
    } else {
      SplitJoin(lines[1..]);
      SplitFirst(lines[0], Join(lines[1..], "\n"));
      assert [lines[0]] + lines[1..] == lines;
    }
  }

  lemma {:induction false} JoinNoNewline(parts: seq<string>, sep: string)
    requires NoNewline(sep)
    requires forall i | 0 <= i < |parts| :: NoNewline(parts[i])
    ensures NoNewline(Join(parts, sep))
    decreases |parts|
  {
    if |parts| > 1 {
      JoinNoNewline(parts[1..], sep);
    }
  }

  lemma NatTextNoNewline(n: nat)
    ensures NoNewline(NatText(n))
  {
  }

  lemma NumTextNoNewline(m: Milli)
    ensures NoNewline(NumText(m))
  {
    var a := if m < 0 then -m else m;
    NatTextNoNewline(a / 1000);
    var f := a % 1000;
    var t := TrimZeros([Digit(f / 100), Digit(f / 10 % 10), Digit(f % 10)]);
    assert NoNewline(t);
  }

  lemma SampleLineNoNewline(name: string, s: Sample)
    requires NoNewline(name)
    requires forall p | p in s.labels :: NoNewline(p.0) && NoNewline(p.1)
    ensures NoNewline(SampleLine(name, s))
  {
    var parts := Pairs(s.labels);
    forall i | 0 <= i < |parts| ensures NoNewline(parts[i]) {
      assert s.labels[i] in s.labels;
    }
    JoinNoNewline(parts, ",");
    NumTextNoNewline(s.value);
  }

  lemma MetricLinesNoNewline(d: MetricData)
    requires NoNewline(d.name) && NoNewline(d.help)
    requires forall j | 0 <= j < |d.values| ::
      forall p | p in d.values[j].labels :: NoNewline(p.0) && NoNewline(p.1)
    ensures forall i | 0 <= i < |MetricLines(d)| :: NoNewline(MetricLines(d)[i])
  {
    var head := ["# HELP " + d.name + " " + d.help, "# TYPE " + d.name + " " + TypeName(d.kind)];
    var body := SeriesLines(d.name, d.values);
    assert MetricLines(d) == head + body;
    forall i | 0 <= i < |head| + |body| ensures NoNewline((head + body)[i]) {
      if i < 2 {
        assert (head + body)[i] == head[i];
      } else {
        assert (head + body)[i] == SampleLine(d.name, d.values[i - 2]);
        SampleLineNoNewline(d.name, d.values[i - 2]);
      }
    }
  }

  lemma {:induction false} LinesNoNewline(ds: seq<MetricData>)
    requires SingleLine(ds)
    ensures forall i | 0 <= i < |Lines(ds)| :: NoNewline(Lines(ds)[i])
    decreases |ds|
  {
    if ds != [] {
      assert SingleLine(ds[1..]) by {
        forall k | 0 <= k < |ds| - 1 ensures ds[1..][k] == ds[k + 1] { }
      }
      LinesNoNewline(ds[1..]);
      MetricLinesNoNewline(ds[0]);
    }
  }

  /**
   * The exported text is exactly the line sequence joined by '\n': splitting
   * it gives back the HELP, TYPE and series lines of every metric in order.
   */
  lemma ExpositionLines(ds: seq<MetricData>)
    requires ds != [] && SingleLine(ds)
    ensures SplitLines(ExportText(ds)) == Lines(ds)
  {
    LinesNoNewline(ds);
    assert |Lines(ds)| >= 2;
    SplitJoin(Lines(ds));
  }
}
