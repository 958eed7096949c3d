/**
 * The metric fan-out of `extractTimeseries`, `appendDtoToTimeseries` and
 * `makeTimeseries` (internal/scraper/scraper.go:412-552). The input is
 * what the exposition-format decoder yields: a sequence of decoded metric
 * families followed by the end of the stream or a decoding error.
 */
module Metrics {
  import opened Common
  import opened Labels

  /** An IEEE-754 double, kept as its bit pattern; sample values are carried unchanged. */
  type Float64 = bv64

  /** `x == 0` on doubles: true for +0 and -0 (sign bit only), false for every other value and for NaN. */
  predicate IsZero(x: Float64)
  {
    x == 0 || x == 0x8000_0000_0000_0000
  }

  const FloatZero: Float64 := 0

  /**
   * The floating-point library calls the fan-out makes:
   * `strconv.FormatFloat(x, 'G', -1, 64)` and the conversion `float64(n)`
   * of an unsigned count.
   */
  datatype FloatOps = FloatOps(format: Float64 -> string, fromCount: nat -> Float64)

  /** `dto.MetricType`. */
  datatype MetricType = Counter | Gauge | Summary | Untyped | Histogram

  /** One quantile of a summary: `GetQuantile()` and `GetValue()`. */
  datatype Quantile = Quantile(quantile: Float64, value: Float64)

  /** One bucket of a histogram: `GetUpperBound()` and `GetCumulativeCount()`. */
  datatype Bucket = Bucket(upperBound: Float64, cumulativeCount: nat)

  /** A summary; `quantiles` is `None` when the decoded quantile list is nil. Missing count and sum read as 0. */
  datatype SummaryValue = SummaryValue(sampleCount: nat, sampleSum: Float64, quantiles: Option<seq<Quantile>>)

  /** A histogram; `buckets` is `None` when the decoded bucket list is nil. */
  datatype HistogramValue = HistogramValue(sampleCount: nat, sampleSum: Float64, buckets: Option<seq<Bucket>>)

  /**
   * `dto.Metric`: its labels and one optional value per type. A simple
   * value is `None` when either the value holder or its value is nil.
   */
  datatype Metric = Metric(labels: seq<LabelPair>, counter: Option<Float64>, gauge: Option<Float64>,
                           untyped: Option<Float64>, summary: Option<SummaryValue>,
                           histogram: Option<HistogramValue>)

  /** `dto.MetricFamily`. */
  datatype MetricFamily = MetricFamily(name: string, mtype: MetricType, metrics: seq<Metric>)

  /** How the decoder's stream ends after the families: `io.EOF`, or any other error. */
  datatype StreamEnd = Eof | DecodeError

  datatype Decoded = Decoded(families: seq<MetricFamily>, end: StreamEnd)

  /** `prompb.Sample`: a timestamp in milliseconds and a value. */
  datatype Sample = Sample(timestamp: int, value: Float64)

  /** `prompb.TimeSeries`. */
  datatype TimeSeries = TimeSeries(labels: seq<LabelPair>, samples: seq<Sample>)

  /** The two errors `extractTimeseries` returns: the wrapped `errCheckFailed`, or a decoding error. */
  datatype SeriesError = CheckFailed | DecodeFailed

  /** Go's integer division, which truncates toward zero (Dafny's `/` is Euclidean). */
  function TruncDiv(a: int, b: int): (q: int)
    requires b > 0
    ensures a >= 0 ==> q >= 0 && q * b <= a < q * b + b
    ensures a < 0 ==> q <= 0 && q * b - b < a <= q * b
  {
    if a >= 0 then a / b else -((-a) / b)
  }

  /**
   * `t.UnixNano() / 1e6`: the scrape time in whole milliseconds, truncated
   * toward zero, so times before the epoch round up.
   */
  function TimestampMs(t: int): (ms: int)
    ensures t >= 0 ==> 0 <= ms && ms * 1_000_000 <= t < ms * 1_000_000 + 1_000_000
    ensures t < 0 ==> ms <= 0 && ms * 1_000_000 - 1_000_000 < t <= ms * 1_000_000
  {
    TruncDiv(t, 1_000_000)
  }

  /** `makeTimeseries`: the labels copied, and a single sample stamped with the scrape time in milliseconds. */
  function MakeTimeseries(t: int, value: Float64, labels: seq<LabelPair>): (ts: TimeSeries)
    ensures ts.labels == labels
    ensures |ts.samples| == 1 && ts.samples[0] == Sample(TimestampMs(t), value)
  {
    TimeSeries(labels, [Sample(TimestampMs(t), value)])
  }

  /** The label list of an instance: `__name__` first, then the base labels, then the instance's own. */
  function InstanceLabels(name: string, base: seq<LabelPair>, m: Metric): seq<LabelPair>
  {
    [LabelPair("__name__", name)] + base + m.labels
  }

  /** The series of the quantiles (or buckets) so far: one per element, with one trailing label. */
  function QuantileSeries(t: int, labels: seq<LabelPair>, qs: seq<Quantile>, ops: FloatOps): (r: seq<TimeSeries>)
    ensures |r| == |qs|
  {
    if qs == [] then []
    else
      var q := qs[|qs| - 1];
      QuantileSeries(t, labels, qs[..|qs| - 1], ops)
      + [MakeTimeseries(t, q.value, labels + [LabelPair("quantile", ops.format(q.quantile))])]
  }

  function BucketSeries(t: int, labels: seq<LabelPair>, bs: seq<Bucket>, ops: FloatOps): (r: seq<TimeSeries>)
    ensures |r| == |bs|
  {
    if bs == [] then []
    else
      var b := bs[|bs| - 1];
      BucketSeries(t, labels, bs[..|bs| - 1], ops)
      + [MakeTimeseries(t, ops.fromCount(b.cumulativeCount), labels + [LabelPair("le", ops.format(b.upperBound))])]
  }

  /** The label list with its first label replaced by `__name__` = `name`. */
  function Renamed(labels: seq<LabelPair>, name: string): seq<LabelPair>
    requires |labels| > 0
  {
    labels[0 := LabelPair("__name__", name)]
  }

  /**
   * The series `appendDtoToTimeseries` appends for one instance of a family:
   * at most one for a counter, gauge or untyped metric; for a summary or a
   * histogram, `_sum` and `_count` plus one per quantile or bucket when the
   * list is present, and none otherwise.
   */
  function DtoSeries(t: int, name: string, base: seq<LabelPair>, mtype: MetricType, m: Metric, ops: FloatOps)
    : (r: seq<TimeSeries>)
    ensures mtype == Counter || mtype == Gauge || mtype == Untyped ==> |r| <= 1
    ensures mtype == Summary ==>
              |r| == if m.summary.Some? && m.summary.value.quantiles.Some? then 2 + |m.summary.value.quantiles.value| else 0
    ensures mtype == Histogram ==>
              |r| == if m.histogram.Some? && m.histogram.value.buckets.Some? then 2 + |m.histogram.value.buckets.value| else 0
  {
    var labels := InstanceLabels(name, base, m);
    match mtype
    case Counter => if m.counter.Some? then [MakeTimeseries(t, m.counter.value, labels)] else []
    case Gauge => if m.gauge.Some? then [MakeTimeseries(t, m.gauge.value, labels)] else []
    case Untyped => if m.untyped.Some? then [MakeTimeseries(t, m.untyped.value, labels)] else []
    case Summary =>
      if m.summary.Some? && m.summary.value.quantiles.Some? then
        var s := m.summary.value;
        [ MakeTimeseries(t, s.sampleSum, Renamed(labels, name + "_sum")),
          MakeTimeseries(t, ops.fromCount(s.sampleCount), Renamed(labels, name + "_count")) ]
        + QuantileSeries(t, labels, s.quantiles.value, ops)
      else []
    case Histogram =>
      if m.histogram.Some? && m.histogram.value.buckets.Some? then
        var h := m.histogram.value;
        [ MakeTimeseries(t, h.sampleSum, Renamed(labels, name + "_sum")),
          MakeTimeseries(t, ops.fromCount(h.sampleCount), Renamed(labels, name + "_count")) ]
        + BucketSeries(t, labels, h.buckets.value, ops)
      else []
  }

  /** The `i`-th quantile series is that quantile's value under the labels plus a `quantile` label. */
  lemma {:induction false} QuantileSeriesAt(t: int, labels: seq<LabelPair>, qs: seq<Quantile>, ops: FloatOps, i: nat)
    requires i < |qs|
    ensures QuantileSeries(t, labels, qs, ops)[i]
            == MakeTimeseries(t, qs[i].value, labels + [LabelPair("quantile", ops.format(qs[i].quantile))])
    decreases |qs|
  {
    if i < |qs| - 1 {
      QuantileSeriesAt(t, labels, qs[..|qs| - 1], ops, i);
    }
  }

  /** The `i`-th bucket series is that bucket's cumulative count under the labels plus an `le` label. */
  lemma {:induction false} BucketSeriesAt(t: int, labels: seq<LabelPair>, bs: seq<Bucket>, ops: FloatOps, i: nat)
    requires i < |bs|
    ensures BucketSeries(t, labels, bs, ops)[i]
            == MakeTimeseries(t, ops.fromCount(bs[i].cumulativeCount), labels + [LabelPair("le", ops.format(bs[i].upperBound))])
    decreases |bs|
  {
    if i < |bs| - 1 {
      BucketSeriesAt(t, labels, bs[..|bs| - 1], ops, i);
    }
  }

  /** The value a counter, gauge or untyped instance carries for its type. */
  function SimpleValue(mtype: MetricType, m: Metric): Option<Float64>
    requires mtype == Counter || mtype == Gauge || mtype == Untyped
  {
    match mtype
    case Counter => m.counter
    case Gauge => m.gauge
    case Untyped => m.untyped
  }

  /** Counter, gauge and untyped instances give one series when their value is present, none otherwise. */
  lemma SimpleSeries(t: int, name: string, base: seq<LabelPair>, mtype: MetricType, m: Metric, ops: FloatOps)
    requires mtype == Counter || mtype == Gauge || mtype == Untyped
    ensures var r := DtoSeries(t, name, base, mtype, m, ops);
            && (SimpleValue(mtype, m).None? ==> r == [])
            && (SimpleValue(mtype, m).Some? ==>
                  |r| == 1 && r[0].labels == InstanceLabels(name, base, m)
                  && r[0].samples == [Sample(TimestampMs(t), SimpleValue(mtype, m).value)])
  {
  }

  /**
   * A summary with a quantile list gives `_sum`, `_count` (only the first
   * label renamed) and one series per quantile (one extra `quantile`
   * label); without a quantile list it gives nothing.
   */
  lemma SummarySeries(t: int, name: string, base: seq<LabelPair>, m: Metric, ops: FloatOps)
    ensures var r := DtoSeries(t, name, base, Summary, m, ops);
            var labels := InstanceLabels(name, base, m);
            && (m.summary.None? || m.summary.value.quantiles.None? ==> r == [])
            && (m.summary.Some? && m.summary.value.quantiles.Some? ==>
                  var s := m.summary.value;
                  var q := s.quantiles.value;
                  && |r| == 2 + |q|
                  && r[0].labels[0] == LabelPair("__name__", name + "_sum") && r[0].labels[1..] == labels[1..]
                  && r[0].samples == [Sample(TimestampMs(t), s.sampleSum)]
                  && r[1].labels[0] == LabelPair("__name__", name + "_count") && r[1].labels[1..] == labels[1..]
                  && r[1].samples == [Sample(TimestampMs(t), ops.fromCount(s.sampleCount))]
                  && forall i :: 0 <= i < |q| ==>
                       && r[2 + i].labels == labels + [LabelPair("quantile", ops.format(q[i].quantile))]
                       && r[2 + i].samples == [Sample(TimestampMs(t), q[i].value)])
  {
    if m.summary.Some? && m.summary.value.quantiles.Some? {
      var labels := InstanceLabels(name, base, m);
      var q := m.summary.value.quantiles.value;
      forall i | 0 <= i < |q|
        ensures DtoSeries(t, name, base, Summary, m, ops)[2 + i]
                == MakeTimeseries(t, q[i].value, labels + [LabelPair("quantile", ops.format(q[i].quantile))])
      {
        QuantileSeriesAt(t, labels, q, ops, i);
      }
    }
  }

  /**
   * A histogram with a bucket list gives `_sum`, `_count` (only the first
   * label renamed) and one series per bucket (one extra `le` label); without
   * a bucket list it gives nothing.
   */
  lemma HistogramSeries(t: int, name: string, base: seq<LabelPair>, m: Metric, ops: FloatOps)
    ensures var r := DtoSeries(t, name, base, Histogram, m, ops);
            var labels := InstanceLabels(name, base, m);
            && (m.histogram.None? || m.histogram.value.buckets.None? ==> r == [])
            && (m.histogram.Some? && m.histogram.value.buckets.Some? ==>
                  var h := m.histogram.value;
                  var b := h.buckets.value;
                  && |r| == 2 + |b|
                  && r[0].labels[0] == LabelPair("__name__", name + "_sum") && r[0].labels[1..] == labels[1..]
                  && r[0].samples == [Sample(TimestampMs(t), h.sampleSum)]
                  && r[1].labels[0] == LabelPair("__name__", name + "_count") && r[1].labels[1..] == labels[1..]
                  && r[1].samples == [Sample(TimestampMs(t), ops.fromCount(h.sampleCount))]
                  && forall i :: 0 <= i < |b| ==>
                       && r[2 + i].labels == labels + [LabelPair("le", ops.format(b[i].upperBound))]
                       && r[2 + i].samples == [Sample(TimestampMs(t), ops.fromCount(b[i].cumulativeCount))])
  {
    if m.histogram.Some? && m.histogram.value.buckets.Some? {
      var labels := InstanceLabels(name, base, m);
      var b := m.histogram.value.buckets.value;
      forall i | 0 <= i < |b|
        ensures DtoSeries(t, name, base, Histogram, m, ops)[2 + i]
                == MakeTimeseries(t, ops.fromCount(b[i].cumulativeCount), labels + [LabelPair("le", ops.format(b[i].upperBound))])
      {
        BucketSeriesAt(t, labels, b, ops, i);
      }
    }
  }

  /** The shape every series shares: `__name__` first, then the base labels, and one sample at the scrape time. */
  predicate WellLabelled(ts: TimeSeries, t: int, base: seq<LabelPair>)
  {
    && |ts.labels| > |base|
    && ts.labels[0].name == "__name__"
    && ts.labels[1..|base| + 1] == base
    && |ts.samples| == 1 && ts.samples[0].timestamp == TimestampMs(t)
  }

  /** A series under the instance labels plus one more label has the shared shape. */
  lemma ExtendedWellLabelled(ts: TimeSeries, t: int, base: seq<LabelPair>, labels: seq<LabelPair>, extra: LabelPair)
    requires |labels| > |base| && labels[0].name == "__name__" && labels[1..|base| + 1] == base
    requires ts.labels == labels + [extra]
    requires |ts.samples| == 1 && ts.samples[0].timestamp == TimestampMs(t)
    ensures WellLabelled(ts, t, base)
  {
    assert ts.labels[1..|base| + 1] == labels[1..|base| + 1];
  }

  /** A series under the instance labels with only its name changed has the shared shape. */
  lemma RenamedWellLabelled(ts: TimeSeries, t: int, base: seq<LabelPair>, labels: seq<LabelPair>)
    requires |labels| > |base| && labels[1..|base| + 1] == base
    requires |ts.labels| > 0 && ts.labels[0].name == "__name__" && ts.labels[1..] == labels[1..]
    requires |ts.samples| == 1 && ts.samples[0].timestamp == TimestampMs(t)
    ensures WellLabelled(ts, t, base)
  {
    assert ts.labels[1..|base| + 1] == ts.labels[1..][..|base|];
    assert labels[1..|base| + 1] == labels[1..][..|base|];
  }

  /** Every series of a summary instance has the shared shape. */
  lemma SummaryWellLabelled(t: int, name: string, base: seq<LabelPair>, m: Metric, ops: FloatOps)
    requires m.summary.Some? && m.summary.value.quantiles.Some?
    ensures forall i :: 0 <= i < |DtoSeries(t, name, base, Summary, m, ops)| ==>
              WellLabelled(DtoSeries(t, name, base, Summary, m, ops)[i], t, base)
  {
    var labels := InstanceLabels(name, base, m);
    assert labels[1..|base| + 1] == base;
    var r := DtoSeries(t, name, base, Summary, m, ops);
    SummarySeries(t, name, base, m, ops);
    var q := m.summary.value.quantiles.value;
    forall i | 0 <= i < |r| ensures WellLabelled(r[i], t, base) {
      if i >= 2 {
        ExtendedWellLabelled(r[i], t, base, labels, LabelPair("quantile", ops.format(q[i - 2].quantile)));
      } else {
        RenamedWellLabelled(r[i], t, base, labels);
      }
    }
  }

  /** Every series of a histogram instance has the shared shape. */
  lemma HistogramWellLabelled(t: int, name: string, base: seq<LabelPair>, m: Metric, ops: FloatOps)
    requires m.histogram.Some? && m.histogram.value.buckets.Some?
    ensures forall i :: 0 <= i < |DtoSeries(t, name, base, Histogram, m, ops)| ==>
              WellLabelled(DtoSeries(t, name, base, Histogram, m, ops)[i], t, base)
  {
    var labels := InstanceLabels(name, base, m);
    assert labels[1..|base| + 1] == base;
    var r := DtoSeries(t, name, base, Histogram, m, ops);
    HistogramSeries(t, name, base, m, ops);
    var b := m.histogram.value.buckets.value;
    forall i | 0 <= i < |r| ensures WellLabelled(r[i], t, base) {
      if i >= 2 {
        ExtendedWellLabelled(r[i], t, base, labels, LabelPair("le", ops.format(b[i - 2].upperBound)));
      } else {
        RenamedWellLabelled(r[i], t, base, labels);
      }
    }
  }

  /** Every series of any instance, whatever its type, has the shared shape. */
  lemma DtoSeriesWellLabelled(t: int, name: string, base: seq<LabelPair>, mtype: MetricType, m: Metric, ops: FloatOps)
    ensures forall i :: 0 <= i < |DtoSeries(t, name, base, mtype, m, ops)| ==>
              WellLabelled(DtoSeries(t, name, base, mtype, m, ops)[i], t, base)
  {
    var labels := InstanceLabels(name, base, m);
    assert labels[1..|base| + 1] == base;
    match mtype {
      case Summary =>
        SummarySeries(t, name, base, m, ops);
        if m.summary.Some? && m.summary.value.quantiles.Some? {
          SummaryWellLabelled(t, name, base, m, ops);
        }
      case Histogram =>
        HistogramSeries(t, name, base, m, ops);
        if m.histogram.Some? && m.histogram.value.buckets.Some? {
          HistogramWellLabelled(t, name, base, m, ops);
        }
      case _ =>
    }
  }

  /** The quantile series after one more quantile. */
  lemma QuantileSeriesPrefix(t: int, labels: seq<LabelPair>, qs: seq<Quantile>, k: nat, ops: FloatOps)
    requires k < |qs|
    ensures QuantileSeries(t, labels, qs[..k + 1], ops)
            == QuantileSeries(t, labels, qs[..k], ops)
               + [MakeTimeseries(t, qs[k].value, labels + [LabelPair("quantile", ops.format(qs[k].quantile))])]
  {
    assert qs[..k + 1][..k] == qs[..k];
  }

  /** The bucket series after one more bucket. */
  lemma BucketSeriesPrefix(t: int, labels: seq<LabelPair>, bs: seq<Bucket>, k: nat, ops: FloatOps)
    requires k < |bs|
    ensures BucketSeries(t, labels, bs[..k + 1], ops)
            == BucketSeries(t, labels, bs[..k], ops)
               + [MakeTimeseries(t, ops.fromCount(bs[k].cumulativeCount), labels + [LabelPair("le", ops.format(bs[k].upperBound))])]
  {
    assert bs[..k + 1][..k] == bs[..k];
  }

  /** The series of a summary instance: its sum, its count, then one per quantile. */
  lemma DtoSeriesSummary(t: int, name: string, base: seq<LabelPair>, m: Metric, ops: FloatOps)
    requires m.summary.Some? && m.summary.value.quantiles.Some?
    ensures var labels := InstanceLabels(name, base, m);
            DtoSeries(t, name, base, Summary, m, ops)
            == [ MakeTimeseries(t, m.summary.value.sampleSum, labels[0 := LabelPair("__name__", name + "_sum")]),
                 MakeTimeseries(t, ops.fromCount(m.summary.value.sampleCount), labels[0 := LabelPair("__name__", name + "_count")]) ]
               + QuantileSeries(t, labels, m.summary.value.quantiles.value, ops)
  {
  }

  /** The series of a histogram instance: its sum, its count, then one per bucket. */
  lemma DtoSeriesHistogram(t: int, name: string, base: seq<LabelPair>, m: Metric, ops: FloatOps)
    requires m.histogram.Some? && m.histogram.value.buckets.Some?
    ensures var labels := InstanceLabels(name, base, m);
            DtoSeries(t, name, base, Histogram, m, ops)
            == [ MakeTimeseries(t, m.histogram.value.sampleSum, labels[0 := LabelPair("__name__", name + "_sum")]),
                 MakeTimeseries(t, ops.fromCount(m.histogram.value.sampleCount), labels[0 := LabelPair("__name__", name + "_count")]) ]
               + BucketSeries(t, labels, m.histogram.value.buckets.value, ops)
  {
  }

  /** The label list of `appendDtoToTimeseries` (:477-482): `__name__`, the base labels, then the instance's own. */
  method BuildLabels(name: string, base: seq<LabelPair>, m: Metric) returns (labels: seq<LabelPair>)
    ensures labels == InstanceLabels(name, base, m)
  {
    labels := [LabelPair("__name__", name)] + base;
    for k := 0 to |m.labels|
      invariant labels == [LabelPair("__name__", name)] + base + m.labels[..k]
    {
      assert m.labels[..k + 1] == m.labels[..k] + [m.labels[k]];
      labels := labels + [m.labels[k]];
    }
    assert m.labels[..|m.labels|] == m.labels;
  }

  /** The quantile loop (:515-521): one series per quantile, under the labels plus its `quantile` label. */
  method AppendQuantiles(ts: seq<TimeSeries>, t: int, labels: seq<LabelPair>, q: seq<Quantile>, ops: FloatOps)
    returns (out: seq<TimeSeries>)
    ensures out == ts + QuantileSeries(t, labels, q, ops)
  {
    out := ts;
    for k := 0 to |q|
      invariant out == ts + QuantileSeries(t, labels, q[..k], ops)
    {
      var sLabels := labels + [LabelPair("quantile", ops.format(q[k].quantile))];
      QuantileSeriesPrefix(t, labels, q, k, ops);
      out := out + [MakeTimeseries(t, q[k].value, sLabels)];
    }
    assert q[..|q|] == q;
  }

  /** The bucket loop (:540-546): one series per bucket, under the labels plus its `le` label. */
  method AppendBuckets(ts: seq<TimeSeries>, t: int, labels: seq<LabelPair>, b: seq<Bucket>, ops: FloatOps)
    returns (out: seq<TimeSeries>)
    ensures out == ts + BucketSeries(t, labels, b, ops)
  {
    out := ts;
    for k := 0 to |b|
      invariant out == ts + BucketSeries(t, labels, b[..k], ops)
    {
      var hLabels := labels + [LabelPair("le", ops.format(b[k].upperBound))];
      BucketSeriesPrefix(t, labels, b, k, ops);
      out := out + [MakeTimeseries(t, ops.fromCount(b[k].cumulativeCount), hLabels)];
    }
    assert b[..|b|] == b;
  }

  /** `appendDtoToTimeseries`: builds the label list, then appends the instance's series by its type. */
  method AppendDtoToTimeseries(ts: seq<TimeSeries>, t: int, name: string, base: seq<LabelPair>,
                               mtype: MetricType, m: Metric, ops: FloatOps)
    returns (out: seq<TimeSeries>)
    ensures out == ts + DtoSeries(t, name, base, mtype, m, ops)
  {
    var labels := BuildLabels(name, base, m);
    out := ts;
    match mtype {
      case Counter =>
        if m.counter.Some? {
          out := out + [MakeTimeseries(t, m.counter.value, labels)];
        }
      case Gauge =>
        if m.gauge.Some? {
          out := out + [MakeTimeseries(t, m.gauge.value, labels)];
        }
      case Untyped =>
        if m.untyped.Some? {
          out := out + [MakeTimeseries(t, m.untyped.value, labels)];
        }
      case Summary =>
        if m.summary.Some? && m.summary.value.quantiles.Some? {
          var s := m.summary.value;
          var sLabels := labels[0 := LabelPair("__name__", name + "_sum")];
          out := out + [MakeTimeseries(t, s.sampleSum, sLabels)];
          sLabels := labels[0 := LabelPair("__name__", name + "_count")];
          out := out + [MakeTimeseries(t, ops.fromCount(s.sampleCount), sLabels)];
          out := AppendQuantiles(out, t, labels, s.quantiles.value, ops);
          DtoSeriesSummary(t, name, base, m, ops);
        }
      case Histogram =>
        if m.histogram.Some? && m.histogram.value.buckets.Some? {
          var h := m.histogram.value;
          var hLabels := labels[0 := LabelPair("__name__", name + "_sum")];
          out := out + [MakeTimeseries(t, h.sampleSum, hLabels)];
          hLabels := labels[0 := LabelPair("__name__", name + "_count")];
          out := out + [MakeTimeseries(t, ops.fromCount(h.sampleCount), hLabels)];
          out := AppendBuckets(out, t, labels, h.buckets.value, ops);
          DtoSeriesHistogram(t, name, base, m, ops);
        }
    }
  }

  /** One metric instance in stream order, with its family's name and type. */
  datatype Instance = Instance(name: string, mtype: MetricType, metric: Metric)

  /** The instances of one family, in order. */
  function FamilyInstances(f: MetricFamily): (r: seq<Instance>)
    ensures |r| == |f.metrics|
    ensures forall i :: 0 <= i < |r| ==> r[i] == Instance(f.name, f.mtype, f.metrics[i])
  {
    seq(|f.metrics|, i requires 0 <= i < |f.metrics| => Instance(f.name, f.mtype, f.metrics[i]))
  }

  /** The instances of all families, family after family. */
  function Instances(fs: seq<MetricFamily>): seq<Instance>
  {
    if fs == [] then [] else Instances(fs[..|fs| - 1]) + FamilyInstances(fs[|fs| - 1])
  }

  /** The instances after one more family. */
  lemma InstancesSnoc(fs: seq<MetricFamily>, f: MetricFamily)
    ensures Instances(fs + [f]) == Instances(fs) + FamilyInstances(f)
  {
    assert (fs + [f])[..|fs|] == fs;
  }

  /** The instances of a concatenation are the instances of its parts, in order. */
  lemma {:induction false} InstancesAppend(a: seq<MetricFamily>, b: seq<MetricFamily>)
    ensures Instances(a + b) == Instances(a) + Instances(b)
    decreases |b|
  {
    if b == [] {
      assert a + b == a;
    } else {
      var init, last := b[..|b| - 1], b[|b| - 1];
      assert b == init + [last];
      assert a + b == (a + init) + [last];
      InstancesAppend(a, init);
      InstancesSnoc(a + init, last);
      InstancesSnoc(init, last);
      ConcatAssoc(Instances(a), Instances(init), FamilyInstances(last));
    }
  }

  /** `m.GetGauge().GetValue()`: a missing gauge or value reads as 0. */
  function GaugeValue(m: Metric): Float64
  {
    if m.gauge.Some? then m.gauge.value else FloatZero
  }

  /**
   * An instance of a `probe_success` gauge family whose value equals 0. A
   * gauge without a value reads as 0, so it signals a failure too.
   */
  predicate SignalsFailure(x: Instance)
    ensures SignalsFailure(x) ==> x.name == "probe_success" && x.mtype == Gauge
    ensures x.name == "probe_success" && x.mtype == Gauge && x.metric.gauge.None? ==> SignalsFailure(x)
  {
    x.name == "probe_success" && x.mtype == Gauge && IsZero(GaugeValue(x.metric))
  }

  /** The position of the first instance that signals a failed probe. */
  function FirstFailure(xs: seq<Instance>): (r: Option<nat>)
    ensures r.Some? ==> r.value < |xs| && SignalsFailure(xs[r.value])
    ensures r.Some? ==> forall j :: 0 <= j < r.value ==> !SignalsFailure(xs[j])
    ensures r.None? ==> forall j :: 0 <= j < |xs| ==> !SignalsFailure(xs[j])
  {
    if xs == [] then None
    else if SignalsFailure(xs[0]) then Some(0)
    else match FirstFailure(xs[1..])
      case None => None
      case Some(k) => Some(k + 1)
  }

  lemma NoFailureExtends(xs: seq<Instance>, x: Instance)
    requires FirstFailure(xs).None? && !SignalsFailure(x)
    ensures FirstFailure(xs + [x]).None?
  {
    assert forall j :: 0 <= j < |xs| ==> (xs + [x])[j] == xs[j];
  }

  lemma FailureAt(xs: seq<Instance>, x: Instance, rest: seq<Instance>)
    requires FirstFailure(xs).None? && SignalsFailure(x)
    ensures FirstFailure(xs + [x] + rest) == Some(|xs|)
  {
    var all := xs + [x] + rest;
    assert all[|xs|] == x;
    assert forall j :: 0 <= j < |xs| ==> all[j] == xs[j];
  }

  /** The series one instance contributes. */
  function InstanceSeries(t: int, base: seq<LabelPair>, x: Instance, ops: FloatOps): seq<TimeSeries>
  {
    DtoSeries(t, x.name, base, x.mtype, x.metric, ops)
  }

  /** The series of all instances, in order. */
  function AllSeries(t: int, base: seq<LabelPair>, xs: seq<Instance>, ops: FloatOps): seq<TimeSeries>
  {
    if xs == [] then []
    else AllSeries(t, base, xs[..|xs| - 1], ops) + InstanceSeries(t, base, xs[|xs| - 1], ops)
  }

  /**
   * `extractTimeseries`: the first instance signalling a failed probe
   * yields only its own series and the check-failed error (everything
   * gathered before it is dropped); otherwise the end of the stream yields
   * all series, and a decoding error yields no series.
   */
  function ExtractTimeseries(t: int, d: Decoded, base: seq<LabelPair>, ops: FloatOps)
    : (r: (seq<TimeSeries>, Option<SeriesError>))
    ensures d.end != Eof ==> r.1.Some?
    ensures r.1 == Some(DecodeFailed) ==> d.end != Eof && r.0 == []
    ensures r.1 == Some(CheckFailed) ==> |r.0| <= 1
  {
    var xs := Instances(d.families);
    match FirstFailure(xs)
    case Some(k) => (InstanceSeries(t, base, xs[k], ops), Some(CheckFailed))
    case None =>
      if d.end == Eof then (AllSeries(t, base, xs, ops), None) else ([], Some(DecodeFailed))
  }

  /** The instances of the families up to `fi` inclusive. */
  lemma InstancesPrefix(fs: seq<MetricFamily>, fi: nat)
    requires fi < |fs|
    ensures Instances(fs[..fi + 1]) == Instances(fs[..fi]) + FamilyInstances(fs[fi])
  {
    assert fs[..fi + 1][..fi] == fs[..fi];
  }

  /** The instances of the whole stream, cut after family `fi`. */
  lemma InstancesCut(fs: seq<MetricFamily>, fi: nat)
    requires fi < |fs|
    ensures Instances(fs) == Instances(fs[..fi + 1]) + Instances(fs[fi + 1..])
  {
    var front, back := fs[..fi + 1], fs[fi + 1..];
    assert front + back == fs;
    InstancesAppend(front, back);
  }

  /** A sequence cut around its `mi`-th element. */
  lemma CutAround<T>(done: seq<T>, here: seq<T>, later: seq<T>, mi: nat)
    requires mi < |here|
    ensures done + here + later == (done + here[..mi]) + [here[mi]] + (here[mi + 1..] + later)
  {
    assert here == here[..mi] + [here[mi]] + here[mi + 1..];
  }

  /** The stream's instances around the `mi`-th instance of family `fi`. */
  lemma InstancesAround(fs: seq<MetricFamily>, fi: nat, mi: nat)
    requires fi < |fs| && mi < |fs[fi].metrics|
    ensures var here := FamilyInstances(fs[fi]);
            Instances(fs) == (Instances(fs[..fi]) + here[..mi]) + [here[mi]]
                             + (here[mi + 1..] + Instances(fs[fi + 1..]))
  {
    InstancesPrefix(fs, fi);
    InstancesCut(fs, fi);
    CutAround(Instances(fs[..fi]), FamilyInstances(fs[fi]), Instances(fs[fi + 1..]), mi);
  }

  /** Where the loop meets the first failing instance, in terms of the whole stream. */
  lemma FailureInStream(fs: seq<MetricFamily>, fi: nat, mi: nat)
    requires fi < |fs| && mi < |fs[fi].metrics|
    requires FirstFailure(Instances(fs[..fi]) + FamilyInstances(fs[fi])[..mi]).None?
    requires SignalsFailure(FamilyInstances(fs[fi])[mi])
    ensures var k := |Instances(fs[..fi])| + mi;
            FirstFailure(Instances(fs)) == Some(k) && k < |Instances(fs)|
            && Instances(fs)[k] == FamilyInstances(fs[fi])[mi]
  {
    var here := FamilyInstances(fs[fi]);
    InstancesAround(fs, fi, mi);
    FailureAt(Instances(fs[..fi]) + here[..mi], here[mi], here[mi + 1..] + Instances(fs[fi + 1..]));
  }

  /** The result when the `mi`-th instance of family `fi` is the stream's first failing one. */
  lemma FailureResult(t: int, d: Decoded, base: seq<LabelPair>, fi: nat, mi: nat, ops: FloatOps)
    requires fi < |d.families| && mi < |d.families[fi].metrics|
    requires FirstFailure(Instances(d.families[..fi]) + FamilyInstances(d.families[fi])[..mi]).None?
    requires SignalsFailure(FamilyInstances(d.families[fi])[mi])
    ensures var f := d.families[fi];
            ExtractTimeseries(t, d, base, ops)
            == (DtoSeries(t, f.name, base, f.mtype, f.metrics[mi], ops), Some(CheckFailed))
  {
    FailureInStream(d.families, fi, mi);
  }

  /** Taking one more element of `here` appends that element. */
  lemma PrefixSnoc<T>(done: seq<T>, here: seq<T>, mi: nat, seen: seq<T>, x: T)
    requires mi < |here| && here[mi] == x && seen == done + here[..mi]
    ensures seen + [x] == done + here[..mi + 1]
  {
    assert here[..mi + 1] == here[..mi] + [here[mi]];
  }

  /** One more non-failing instance extends both loop invariants. */
  lemma ProcessedOneMore(t: int, base: seq<LabelPair>, seen: seq<Instance>,
                         name: string, mtype: MetricType, m: Metric, ops: FloatOps)
    requires FirstFailure(seen).None? && !SignalsFailure(Instance(name, mtype, m))
    ensures FirstFailure(seen + [Instance(name, mtype, m)]).None?
    ensures AllSeries(t, base, seen + [Instance(name, mtype, m)], ops)
            == AllSeries(t, base, seen, ops) + DtoSeries(t, name, base, mtype, m, ops)
  {
    var x := Instance(name, mtype, m);
    NoFailureExtends(seen, x);
    assert (seen + [x])[..|seen + [x]| - 1] == seen;
  }

  /**
   * The failing branch of the inner loop: the series gathered so far are
   * dropped and only the failing instance's series are returned.
   */
  method ExtractFailing(t: int, ghost d: Decoded, ghost fi: nat, ghost mi: nat, mf: MetricFamily, m: Metric,
                        metricLabels: seq<LabelPair>, ops: FloatOps)
    returns (ts: seq<TimeSeries>)
    requires fi < |d.families| && mi < |d.families[fi].metrics|
    requires mf == d.families[fi] && m == mf.metrics[mi]
    requires FirstFailure(Instances(d.families[..fi]) + FamilyInstances(d.families[fi])[..mi]).None?
    requires SignalsFailure(FamilyInstances(d.families[fi])[mi])
    ensures (ts, Some(CheckFailed)) == ExtractTimeseries(t, d, metricLabels, ops)
  {
    var empty: seq<TimeSeries> := [];
    ts := AppendDtoToTimeseries(empty, t, mf.name, metricLabels, mf.mtype, m, ops);
    assert ts == DtoSeries(t, mf.name, metricLabels, mf.mtype, m, ops);
    FailureResult(t, d, metricLabels, fi, mi, ops);
  }

  /**
   * The inner loop of `extractTimeseries` over the instances of family
   * `fi`: it either meets the stream's first failing instance, and then
   * `ts` already is the whole result, or it extends the series of the
   * families before it by those of family `fi`.
   */
  method ExtractFamily(t: int, ghost d: Decoded, fi: nat, mf: MetricFamily, metricLabels: seq<LabelPair>,
                       ts0: seq<TimeSeries>, ops: FloatOps)
    returns (ts: seq<TimeSeries>, failed: bool)
    requires fi < |d.families| && mf == d.families[fi]
    requires FirstFailure(Instances(d.families[..fi])).None?
    requires ts0 == AllSeries(t, metricLabels, Instances(d.families[..fi]), ops)
    ensures failed ==> (ts, Some(CheckFailed)) == ExtractTimeseries(t, d, metricLabels, ops)
    ensures !failed ==> FirstFailure(Instances(d.families[..fi + 1])).None?
    ensures !failed ==> ts == AllSeries(t, metricLabels, Instances(d.families[..fi + 1]), ops)
  {
    ghost var base := metricLabels;
    var isProbeSuccess := mf.name == "probe_success" && mf.mtype == Gauge;
    ghost var done := Instances(d.families[..fi]);
    ghost var here := FamilyInstances(mf);
    ghost var seen := done;
    assert done + here[..0] == done;
    ts := ts0;
    for mi := 0 to |mf.metrics|
      invariant seen == done + here[..mi]
      invariant FirstFailure(seen).None?
      invariant ts == AllSeries(t, base, seen, ops)
    {
      var m := mf.metrics[mi];
      assert here[mi] == Instance(mf.name, mf.mtype, m);
      if isProbeSuccess && IsZero(GaugeValue(m)) {
        ts := ExtractFailing(t, d, fi, mi, mf, m, metricLabels, ops);
        return ts, true;
      }
      ProcessedOneMore(t, base, seen, mf.name, mf.mtype, m, ops);
      ts := AppendDtoToTimeseries(ts, t, mf.name, metricLabels, mf.mtype, m, ops);
      PrefixSnoc(done, here, mi, seen, Instance(mf.name, mf.mtype, m));
      seen := seen + [Instance(mf.name, mf.mtype, m)];
    }
    assert here[..|mf.metrics|] == here;
    InstancesPrefix(d.families, fi);
    return ts, false;
  }

  /** The decoding loop of `extractTimeseries`, family by family. */
  method ExtractTimeseriesLoop(t: int, d: Decoded, base: seq<LabelPair>, ops: FloatOps)
    returns (ts: seq<TimeSeries>, err: Option<SeriesError>)
    ensures (ts, err) == ExtractTimeseries(t, d, base, ops)
  {
    ts := [];
    var metricLabels: seq<LabelPair> := [];
    for k := 0 to |base|
      invariant metricLabels == base[..k]
    {
      assert base[..k + 1] == base[..k] + [base[k]];
      metricLabels := metricLabels + [base[k]];
    }
    assert base[..|base|] == base;
    var fi := 0;
    while fi < |d.families|
      invariant 0 <= fi <= |d.families|
      invariant FirstFailure(Instances(d.families[..fi])).None?
      invariant ts == AllSeries(t, base, Instances(d.families[..fi]), ops)
    {
      var failed;
      ts, failed := ExtractFamily(t, d, fi, d.families[fi], metricLabels, ts, ops);
      if failed {
        return ts, Some(CheckFailed);
      }
      fi := fi + 1;
    }
    assert d.families[..|d.families|] == d.families;
    if d.end == Eof {
      return ts, None;
    }
    return [], Some(DecodeFailed);
  }

  /** Every series gathered from any instances has the shared shape. */
  lemma {:induction false} AllSeriesWellLabelled(t: int, base: seq<LabelPair>, xs: seq<Instance>, ops: FloatOps)
    ensures forall i :: 0 <= i < |AllSeries(t, base, xs, ops)| ==> WellLabelled(AllSeries(t, base, xs, ops)[i], t, base)
    decreases |xs|
  {
    if xs != [] {
      var x := xs[|xs| - 1];
      AllSeriesWellLabelled(t, base, xs[..|xs| - 1], ops);
      DtoSeriesWellLabelled(t, x.name, base, x.mtype, x.metric, ops);
    }
  }

  /** The series after one more instance. */
  lemma AllSeriesSnoc(t: int, base: seq<LabelPair>, xs: seq<Instance>, x: Instance, ops: FloatOps)
    ensures AllSeries(t, base, xs + [x], ops) == AllSeries(t, base, xs, ops) + InstanceSeries(t, base, x, ops)
  {
    assert (xs + [x])[..|xs|] == xs;
  }

  /** The series of a concatenation are the series of its parts, in order. */
  lemma {:induction false} AllSeriesAppend(t: int, base: seq<LabelPair>, a: seq<Instance>, b: seq<Instance>, ops: FloatOps)
    ensures AllSeries(t, base, a + b, ops) == AllSeries(t, base, a, ops) + AllSeries(t, base, b, ops)
    decreases |b|
  {
    if b == [] {
      assert a + b == a;
    } else {
      var init, last := b[..|b| - 1], b[|b| - 1];
      assert b == init + [last];
      assert a + b == (a + init) + [last];
      AllSeriesAppend(t, base, a, init, ops);
      AllSeriesSnoc(t, base, a + init, last, ops);
      AllSeriesSnoc(t, base, init, last, ops);
      ConcatAssoc(AllSeries(t, base, a, ops), AllSeries(t, base, init, ops), InstanceSeries(t, base, last, ops));
    }
  }

  /**
   * The call succeeds exactly when the stream ends cleanly and no instance
   * signals a failed probe; then every series has the shared shape.
   */
  lemma ExtractTimeseriesSucceeds(t: int, d: Decoded, base: seq<LabelPair>, ops: FloatOps)
    ensures ExtractTimeseries(t, d, base, ops).1.None?
            <==> d.end == Eof && forall j :: 0 <= j < |Instances(d.families)| ==> !SignalsFailure(Instances(d.families)[j])
    ensures var ts := ExtractTimeseries(t, d, base, ops).0;
            forall i :: 0 <= i < |ts| ==> WellLabelled(ts[i], t, base)
  {
    var xs := Instances(d.families);
    var f := FirstFailure(xs);
    if f.Some? {
      var k := f.value;
      assert SignalsFailure(xs[k]);
      assert ExtractTimeseries(t, d, base, ops).1.Some?;
      DtoSeriesWellLabelled(t, xs[k].name, base, xs[k].mtype, xs[k].metric, ops);
    } else {
      AllSeriesWellLabelled(t, base, xs, ops);
    }
  }

  /** Some instance signals a failure exactly when `FirstFailure` finds one. */
  lemma FirstFailureFinds(xs: seq<Instance>)
    ensures FirstFailure(xs).Some? <==> exists j :: 0 <= j < |xs| && SignalsFailure(xs[j])
  {
    if FirstFailure(xs).Some? {
      var k := FirstFailure(xs).value;
      assert SignalsFailure(xs[k]);
    }
  }

  /** No instance of the stream signals a failed probe. */
  predicate NoFailure(xs: seq<Instance>)
  {
    forall j :: 0 <= j < |xs| ==> !SignalsFailure(xs[j])
  }

  /** A decoding error before any failing instance yields no series at all. */
  lemma ExtractTimeseriesDecodeFailed(t: int, d: Decoded, base: seq<LabelPair>, ops: FloatOps)
    ensures ExtractTimeseries(t, d, base, ops).1 == Some(DecodeFailed)
            <==> d.end == DecodeError && NoFailure(Instances(d.families))
    ensures ExtractTimeseries(t, d, base, ops).1 == Some(DecodeFailed) ==> ExtractTimeseries(t, d, base, ops).0 == []
  {
    var xs := Instances(d.families);
    if FirstFailure(xs).Some? {
      var k := FirstFailure(xs).value;
      assert k < |xs| && SignalsFailure(xs[k]);
      assert !NoFailure(xs);
    }
  }

  /**
   * The series of a failing instance: at most one, named `probe_success`,
   * with the base labels and the value 0.
   */
  lemma FailingInstanceSeries(t: int, base: seq<LabelPair>, x: Instance, ops: FloatOps)
    requires SignalsFailure(x)
    ensures var r := InstanceSeries(t, base, x, ops);
            && |r| <= 1
            && forall i :: 0 <= i < |r| ==>
                 && r[i].labels[0] == LabelPair("__name__", "probe_success")
                 && r[i].labels[1..|base| + 1] == base
                 && IsZero(r[i].samples[0].value)
  {
    var labels := InstanceLabels("probe_success", base, x.metric);
    assert labels[1..|base| + 1] == base;
    if x.metric.gauge.Some? {
      assert InstanceSeries(t, base, x, ops) == [MakeTimeseries(t, x.metric.gauge.value, labels)];
    } else {
      assert InstanceSeries(t, base, x, ops) == [];
    }
  }

  /**
   * A `probe_success` gauge equal to 0 anywhere in the stream, even after
   * a decoding error would have been reached, gives the check-failed
   * error and at most the one series of that instance, with its value 0;
   * every series gathered before it is dropped.
   */
  lemma ExtractTimeseriesCheckFailed(t: int, d: Decoded, base: seq<LabelPair>, ops: FloatOps)
    ensures ExtractTimeseries(t, d, base, ops).1 == Some(CheckFailed)
            <==> exists j :: 0 <= j < |Instances(d.families)| && SignalsFailure(Instances(d.families)[j])
    ensures var r := ExtractTimeseries(t, d, base, ops);
            r.1 == Some(CheckFailed) ==>
              && |r.0| <= 1
              && forall i :: 0 <= i < |r.0| ==>
                   && r.0[i].labels[0] == LabelPair("__name__", "probe_success")
                   && r.0[i].labels[1..|base| + 1] == base
                   && IsZero(r.0[i].samples[0].value)
  {
    var xs := Instances(d.families);
    FirstFailureFinds(xs);
    var f := FirstFailure(xs);
    if f.Some? {
      FailingInstanceSeries(t, base, xs[f.value], ops);
    }
  }

  /** Each instance carries the name and type of one of the families. */
  lemma {:induction false} InstanceFromFamily(fs: seq<MetricFamily>, j: nat)
    requires j < |Instances(fs)|
    ensures exists i :: 0 <= i < |fs| && Instances(fs)[j].name == fs[i].name && Instances(fs)[j].mtype == fs[i].mtype
    decreases |fs|
  {
    var n := |fs| - 1;
    var before := Instances(fs[..n]);
    if j < |before| {
      InstanceFromFamily(fs[..n], j);
      var i :| 0 <= i < n && before[j].name == fs[..n][i].name && before[j].mtype == fs[..n][i].mtype;
      assert fs[..n][i] == fs[i];
    } else {
      assert Instances(fs)[j] == FamilyInstances(fs[n])[j - |before|];
    }
  }

  /** Only a family named `probe_success` of gauge type can fail the check; an untyped one never does. */
  lemma OnlyProbeSuccessGaugeFails(t: int, d: Decoded, base: seq<LabelPair>, ops: FloatOps)
    requires forall i :: 0 <= i < |d.families| ==> !(d.families[i].name == "probe_success" && d.families[i].mtype == Gauge)
    ensures ExtractTimeseries(t, d, base, ops).1 != Some(CheckFailed)
  {
    var xs := Instances(d.families);
    forall j | 0 <= j < |xs| ensures !SignalsFailure(xs[j]) {
      InstanceFromFamily(d.families, j);
    }
  }

  /** The stream of two untyped families, `probe_success` then `probe_duration_seconds`, one instance each. */
  function TwoUntyped(success: Float64, duration: Float64): Decoded
  {
    var nothing := Metric([], None, None, None, None, None);
    Decoded([MetricFamily("probe_success", Untyped, [nothing.(untyped := Some(success))]),
             MetricFamily("probe_duration_seconds", Untyped, [nothing.(untyped := Some(duration))])], Eof)
  }

  /**
   * A probe that reports `probe_success` untyped, as the plain text format
   * does without a type line, never fails the check, whatever its value:
   * both instances give their series, in stream order.
   */
  lemma TwoUntypedSeries(t: int, base: seq<LabelPair>, ops: FloatOps, success: Float64, duration: Float64)
    ensures ExtractTimeseries(t, TwoUntyped(success, duration), base, ops)
            == ([MakeTimeseries(t, success, [LabelPair("__name__", "probe_success")] + base),
                 MakeTimeseries(t, duration, [LabelPair("__name__", "probe_duration_seconds")] + base)], None)
  {
    var x0 := Instance("probe_success", Untyped, Metric([], None, None, Some(success), None, None));
    var x1 := Instance("probe_duration_seconds", Untyped, Metric([], None, None, Some(duration), None, None));
    TwoUntypedInstances(success, duration);
    assert FirstFailure([x0, x1]) == None;
    TwoUntypedAll(t, base, x0, x1, success, duration, ops);
  }

  /** Two untyped instances without labels give one series each, in order. */
  lemma TwoUntypedAll(t: int, base: seq<LabelPair>, x0: Instance, x1: Instance, v0: Float64, v1: Float64, ops: FloatOps)
    requires x0.mtype == Untyped && x0.metric == Metric([], None, None, Some(v0), None, None)
    requires x1.mtype == Untyped && x1.metric == Metric([], None, None, Some(v1), None, None)
    ensures AllSeries(t, base, [x0, x1], ops)
            == [MakeTimeseries(t, v0, [LabelPair("__name__", x0.name)] + base),
                MakeTimeseries(t, v1, [LabelPair("__name__", x1.name)] + base)]
  {
    TwoInstancesSeries(t, base, x0, x1, ops);
    UntypedSeries(t, base, x0, v0, ops);
    UntypedSeries(t, base, x1, v1, ops);
  }

  /** The series of two instances are those of the first, then those of the second. */
  lemma TwoInstancesSeries(t: int, base: seq<LabelPair>, x0: Instance, x1: Instance, ops: FloatOps)
    ensures AllSeries(t, base, [x0, x1], ops) == InstanceSeries(t, base, x0, ops) + InstanceSeries(t, base, x1, ops)
  {
    assert [x0, x1][..1] == [x0] && [x0][..0] == [];
    assert AllSeries(t, base, [x0], ops) == InstanceSeries(t, base, x0, ops);
  }

  /** An untyped instance without labels gives one series under its name and the base labels. */
  lemma UntypedSeries(t: int, base: seq<LabelPair>, x: Instance, v: Float64, ops: FloatOps)
    requires x.mtype == Untyped && x.metric == Metric([], None, None, Some(v), None, None)
    ensures InstanceSeries(t, base, x, ops) == [MakeTimeseries(t, v, [LabelPair("__name__", x.name)] + base)]
  {
    assert InstanceLabels(x.name, base, x.metric) == [LabelPair("__name__", x.name)] + base;
  }

  /** The two families of `TwoUntyped` hold one instance each, in order. */
  lemma TwoUntypedInstances(success: Float64, duration: Float64)
    ensures Instances(TwoUntyped(success, duration).families)
            == [Instance("probe_success", Untyped, Metric([], None, None, Some(success), None, None)),
                Instance("probe_duration_seconds", Untyped, Metric([], None, None, Some(duration), None, None))]
  {
    var fs := TwoUntyped(success, duration).families;
    assert fs[0].metrics[0] == Metric([], None, None, Some(success), None, None);
    assert fs[1].metrics[0] == Metric([], None, None, Some(duration), None, None);
    assert fs[..1][..0] == [];
    assert fs[..1] == fs[..|fs| - 1];
    assert Instances(fs[..1]) == [Instance("probe_success", Untyped, fs[0].metrics[0])];
  }

  /**
   * A failing `probe_success` gauge after another gauge: the earlier
   * series is dropped and only the failing instance's series is returned.
   */
  lemma FailedProbeExample(t: int, base: seq<LabelPair>, ops: FloatOps)
    ensures var nothing := Metric([], None, None, None, None, None);
            var duration := nothing.(gauge := Some(0x3FE0_0000_0000_0000));
            var success := nothing.(gauge := Some(FloatZero));
            var d := Decoded([MetricFamily("probe_duration_seconds", Gauge, [duration]),
                              MetricFamily("probe_success", Gauge, [success])], Eof);
            var r := ExtractTimeseries(t, d, base, ops);
            && r.1 == Some(CheckFailed)
            && r.0 == [MakeTimeseries(t, FloatZero, [LabelPair("__name__", "probe_success")] + base)]
  {
    var nothing := Metric([], None, None, None, None, None);
    var duration := nothing.(gauge := Some(0x3FE0_0000_0000_0000));
    var success := nothing.(gauge := Some(FloatZero));
    var fs := [MetricFamily("probe_duration_seconds", Gauge, [duration]),
               MetricFamily("probe_success", Gauge, [success])];
    var xs := [Instance("probe_duration_seconds", Gauge, duration), Instance("probe_success", Gauge, success)];
    assert fs[..1][..0] == [];
    assert fs[..1] == fs[..|fs| - 1];
    assert Instances(fs[..1]) == [xs[0]];
    assert Instances(fs) == xs;
    assert !SignalsFailure(xs[0]) && SignalsFailure(xs[1]);
    assert xs[1..] == [xs[1]];
    assert FirstFailure(xs) == Some(1);
    assert InstanceLabels("probe_success", base, success) == [LabelPair("__name__", "probe_success")] + base;
    assert ExtractTimeseries(t, Decoded(fs, Eof), base, ops)
           == ([MakeTimeseries(t, FloatZero, [LabelPair("__name__", "probe_success")] + base)], Some(CheckFailed));
  }
}
