/**
 * The log conversion of `extractLogs` (internal/scraper/scraper.go:338-410):
 * every decoded logfmt record of the probe's debug output becomes one
 * stream holding one entry. The logfmt decoder and encoder and the RFC 3339
 * timestamp parser are library code; the records arrive already decoded and
 * the two library calls are parameters.
 */
module Logs {
  import opened Common
  import opened Labels

  /** A point in time, in nanoseconds since the Unix epoch. */
  type Time = int

  /** Go's zero `time.Time`, January 1 of year 1, UTC. */
  const ZeroTime: Time := -62135596800 * 1_000_000_000

  /** One key/value pair of a logfmt record; a key without `=` has the empty value. */
  datatype KeyVal = KeyVal(key: string, value: string)

  /** One logfmt record, its pairs in order. */
  type Record = seq<KeyVal>

  /**
   * The library calls: `time.Parse(time.RFC3339Nano, v)`, which may fail,
   * and the logfmt encoding of one pair as `key=value` text, which may fail
   * on a key or value the encoder refuses.
   */
  datatype LogOps = LogOps(parseTime: string -> Option<Time>, encode: KeyVal -> Option<string>)

  /** `logproto.Entry`. */
  datatype Entry = Entry(timestamp: Time, line: string)

  /** `logproto.Stream`: a label selector string and its entries. */
  datatype Stream = Stream(labels: string, entries: seq<Entry>)

  /** Keys that the loop handles itself; every other key is re-encoded into the line. */
  predicate Reencoded(key: string)
  {
    key != "ts" && key != "caller" && key != "module" && key != "level"
  }

  /** What the loop has gathered for the pairs of a record so far. */
  datatype RecordState = RecordState(time: Time, levels: seq<LabelPair>, pairs: seq<string>)

  /**
   * One pair: `ts` sets the record's time (a parse failure skips the
   * record), `caller` and `module` are dropped, `level` adds a label, and
   * any other pair is encoded into the line (an encoding failure skips the
   * record). `None` means the record is skipped, which happens exactly
   * when the pair is not accepted. An accepted pair adds at most one label
   * or one encoded part, and only a `ts` pair moves the time.
   */
  function StepPair(st: RecordState, kv: KeyVal, ops: LogOps): (r: Option<RecordState>)
    ensures r.None? <==> !Accepted(kv, ops)
    ensures r.Some? ==> |r.value.levels| + |r.value.pairs| <= |st.levels| + |st.pairs| + 1
    ensures r.Some? && kv.key != "ts" ==> r.value.time == st.time
  {
    if kv.key == "ts" then
      match ops.parseTime(kv.value)
      case None => None
      case Some(tm) => Some(st.(time := tm))
    else if kv.key == "caller" || kv.key == "module" then Some(st)
    else if kv.key == "level" then Some(st.(levels := st.levels + [LabelPair("level", kv.value)]))
    else
      match ops.encode(kv)
      case None => None
      case Some(text) => Some(st.(pairs := st.pairs + [text]))
  }

  /**
   * The pairs of a record, one after another, from the zero time and no
   * labels or text; each pair contributes at most one label or one part of
   * the line, and a record without pairs keeps the zero time.
   */
  function ScanPairs(rec: Record, ops: LogOps): (r: Option<RecordState>)
    ensures r.Some? ==> |r.value.levels| + |r.value.pairs| <= |rec|
    ensures rec == [] ==> r == Some(RecordState(ZeroTime, [], []))
  {
    if rec == [] then Some(RecordState(ZeroTime, [], []))
    else
      match ScanPairs(rec[..|rec| - 1], ops)
      case None => None
      case Some(st) => StepPair(st, rec[|rec| - 1], ops)
  }

  /** The encoded pairs of a record separated by single spaces, as the encoder writes them. */
  function Joined(parts: seq<string>): string
  {
    if parts == [] then ""
    else Joined(parts[..|parts| - 1]) + (if |parts| > 1 then " " else "") + parts[|parts| - 1]
  }

  /** The line of a record: the joined pairs and the newline `EndRecord` writes. */
  function Line(parts: seq<string>): string
  {
    Joined(parts) + "\n"
  }

  /**
   * The stream of one record, or `None` when the record is skipped: a kept
   * record gives one entry whose line ends in a newline, under a non-empty
   * selector whenever there are base labels.
   */
  function RecordStream(base: seq<LabelPair>, rec: Record, ops: LogOps): (r: Option<Stream>)
    ensures r.Some? ==> |r.value.entries| == 1
    ensures r.Some? ==> var line := r.value.entries[0].line; |line| > 0 && line[|line| - 1] == '\n'
    ensures r.Some? && base != [] ==> r.value.labels != []
  {
    match ScanPairs(rec, ops)
    case None => None
    case Some(st) => Some(Stream(FormatLabels(base + st.levels), [Entry(st.time, Line(st.pairs))]))
  }

  /** `extractLogs`: the streams of the records that are not skipped, in order; never more streams than records. */
  function ExtractLogs(base: seq<LabelPair>, records: seq<Record>, ops: LogOps): (r: seq<Stream>)
    ensures |r| <= |records|
  {
    if records == [] then []
    else
      var rest := ExtractLogs(base, records[..|records| - 1], ops);
      match RecordStream(base, records[|records| - 1], ops)
      case None => rest
      case Some(s) => rest + [s]
  }

  // ---------------------------------------------------------------------
  // An independent description of a record's outcome.
  // ---------------------------------------------------------------------

  /** A pair that does not make the record be skipped. */
  predicate Accepted(kv: KeyVal, ops: LogOps)
  {
    && (kv.key == "ts" ==> ops.parseTime(kv.value).Some?)
    && (Reencoded(kv.key) ==> ops.encode(kv).Some?)
  }

  /** The `level` labels of a record, in order. */
  function Levels(rec: Record): (r: seq<LabelPair>)
    ensures forall j :: 0 <= j < |r| ==> r[j].name == "level"
  {
    if rec == [] then []
    else Levels(rec[..|rec| - 1]) + (if rec[|rec| - 1].key == "level" then [LabelPair("level", rec[|rec| - 1].value)] else [])
  }

  /** The pairs of a record that go into its line, in order; never `ts`, `caller`, `module` or `level`. */
  function Kept(rec: Record): (r: seq<KeyVal>)
    ensures |r| <= |rec|
    ensures forall j :: 0 <= j < |r| ==> Reencoded(r[j].key) && r[j] in rec
  {
    if rec == [] then []
    else
      var init := rec[..|rec| - 1];
      var last := rec[|rec| - 1];
      assert forall kv :: kv in init ==> kv in rec;
      Kept(init) + (if Reencoded(last.key) then [last] else [])
  }

  /** The value of the last `ts` pair of a record, if it has one. */
  function LastTs(rec: Record): (r: Option<string>)
    ensures r.Some? ==> KeyVal("ts", r.value) in rec
    ensures r.None? <==> forall j :: 0 <= j < |rec| ==> rec[j].key != "ts"
  {
    if rec == [] then None
    else if rec[|rec| - 1].key == "ts" then Some(rec[|rec| - 1].value)
    else
      var r := LastTs(rec[..|rec| - 1]);
      assert forall kv :: kv in rec[..|rec| - 1] ==> kv in rec;
      r
  }

  /** The time of a record: its last `ts` parsed, or the zero time when it has none. */
  function RecordTime(rec: Record, ops: LogOps): Time
  {
    match LastTs(rec)
    case None => ZeroTime
    case Some(v) => if ops.parseTime(v).Some? then ops.parseTime(v).value else ZeroTime
  }

  /** The state gathered for a whole record, described pair by pair. */
  predicate Describes(st: RecordState, rec: Record, ops: LogOps)
  {
    && st.time == RecordTime(rec, ops)
    && st.levels == Levels(rec)
    && |st.pairs| == |Kept(rec)|
    && forall j :: 0 <= j < |st.pairs| ==> ops.encode(Kept(rec)[j]) == Some(st.pairs[j])
  }

  /** One accepted pair extends the description by that pair. */
  lemma DescribesStep(st: RecordState, rec: Record, kv: KeyVal, ops: LogOps)
    requires Describes(st, rec, ops) && Accepted(kv, ops)
    ensures StepPair(st, kv, ops).Some?
    ensures Describes(StepPair(st, kv, ops).value, rec + [kv], ops)
  {
    var all := rec + [kv];
    assert all[..|all| - 1] == rec;
    assert all[|all| - 1] == kv;
    var next := StepPair(st, kv, ops).value;
    if Reencoded(kv.key) {
      assert Kept(all) == Kept(rec) + [kv];
      assert next.pairs == st.pairs + [ops.encode(kv).value];
      forall j | 0 <= j < |next.pairs| ensures ops.encode(Kept(all)[j]) == Some(next.pairs[j]) {
        if j < |st.pairs| {
          assert Kept(all)[j] == Kept(rec)[j];
        }
      }
    } else {
      assert Kept(all) == Kept(rec);
    }
  }

  /**
   * A record is kept exactly when every `ts` value parses and every
   * re-encoded pair encodes; then its time is the last `ts`, or the zero
   * time, its labels are its `level` pairs in order, and its line holds
   * the encodings of the remaining pairs in order.
   */
  lemma {:induction false} ScanPairsSpec(rec: Record, ops: LogOps)
    ensures ScanPairs(rec, ops).Some? <==> forall i :: 0 <= i < |rec| ==> Accepted(rec[i], ops)
    ensures ScanPairs(rec, ops).Some? ==> Describes(ScanPairs(rec, ops).value, rec, ops)
    decreases |rec|
  {
    if rec != [] {
      var init := rec[..|rec| - 1];
      var last := rec[|rec| - 1];
      assert rec == init + [last];
      ScanPairsSpec(init, ops);
      assert forall i :: 0 <= i < |init| ==> init[i] == rec[i];
      if ScanPairs(init, ops).Some? && Accepted(last, ops) {
        DescribesStep(ScanPairs(init, ops).value, init, last, ops);
      }
    }
  }

  /** A skipped pair skips the whole record, whatever follows it. */
  lemma {:induction false} SkippedStaysSkipped(rec: Record, k: nat, ops: LogOps)
    requires k <= |rec| && ScanPairs(rec[..k], ops).None?
    ensures ScanPairs(rec, ops).None?
    decreases |rec| - k
  {
    if k < |rec| {
      var next := rec[..k + 1];
      assert next[..|next| - 1] == rec[..k];
      SkippedStaysSkipped(rec, k + 1, ops);
    } else {
      assert rec[..k] == rec;
    }
  }

  /** The stream of a kept record: labels base plus its levels, one entry at the record's time. */
  lemma RecordStreamShape(base: seq<LabelPair>, rec: Record, ops: LogOps)
    ensures RecordStream(base, rec, ops).Some? <==> forall i :: 0 <= i < |rec| ==> Accepted(rec[i], ops)
    ensures RecordStream(base, rec, ops).Some? ==>
              && RecordStream(base, rec, ops).value.labels == FormatLabels(base + Levels(rec))
              && |RecordStream(base, rec, ops).value.entries| == 1
              && RecordStream(base, rec, ops).value.entries[0].timestamp == RecordTime(rec, ops)
  {
    ScanPairsSpec(rec, ops);
  }

  /** The pairs of the record `level=info msg=ok`, scanned one by one. */
  lemma NoTimestampScan(ops: LogOps)
    requires ops.encode(KeyVal("msg", "ok")) == Some("msg=ok")
    ensures ScanPairs([KeyVal("level", "info"), KeyVal("msg", "ok")], ops)
            == Some(RecordState(ZeroTime, [LabelPair("level", "info")], ["msg=ok"]))
  {
    var rec := [KeyVal("level", "info"), KeyVal("msg", "ok")];
    var first := rec[..1];
    var st := RecordState(ZeroTime, [LabelPair("level", "info")], []);
    assert ScanPairs(first, ops) == Some(st) by {
      assert first[..0] == [] && first[0] == KeyVal("level", "info");
      assert [] + [LabelPair("level", "info")] == [LabelPair("level", "info")];
    }
    assert ScanPairs(rec, ops) == StepPair(st, KeyVal("msg", "ok"), ops) by {
      assert rec[..|rec| - 1] == first && rec[1] == KeyVal("msg", "ok");
    }
    assert StepPair(st, KeyVal("msg", "ok"), ops) == Some(st.(pairs := ["msg=ok"])) by {
      assert Reencoded("msg");
      assert [] + ["msg=ok"] == ["msg=ok"];
    }
  }

  /** A record without a `ts` pair is stamped with the zero time, not the scrape time. */
  lemma NoTimestampExample(base: seq<LabelPair>, ops: LogOps)
    requires ops.encode(KeyVal("msg", "ok")) == Some("msg=ok")
    ensures RecordStream(base, [KeyVal("level", "info"), KeyVal("msg", "ok")], ops)
            == Some(Stream(FormatLabels(base + [LabelPair("level", "info")]), [Entry(ZeroTime, "msg=ok\n")]))
  {
    NoTimestampScan(ops);
    assert Line(["msg=ok"]) == "msg=ok\n" by {
      assert ["msg=ok"][..0] == [];
      assert Joined(["msg=ok"]) == "msg=ok";
    }
  }

  /** The streams of a concatenation are the streams of its parts: a skipped record affects no other. */
  lemma {:induction false} ExtractLogsAppend(base: seq<LabelPair>, a: seq<Record>, b: seq<Record>, ops: LogOps)
    ensures ExtractLogs(base, a + b, ops) == ExtractLogs(base, a, ops) + ExtractLogs(base, b, ops)
    decreases |b|
  {
    if b == [] {
      assert a + b == a;
    } else {
      var n := |b| - 1;
      var stream := RecordStream(base, b[n], ops);
      var extra := if stream.Some? then [stream.value] else [];
      assert ExtractLogs(base, a + b, ops) == ExtractLogs(base, a + b[..n], ops) + extra by {
        assert (a + b)[..|a + b| - 1] == a + b[..n];
        assert (a + b)[|a + b| - 1] == b[n];
      }
      assert ExtractLogs(base, b, ops) == ExtractLogs(base, b[..n], ops) + extra;
      ExtractLogsAppend(base, a, b[..n], ops);
      ConcatAssoc(ExtractLogs(base, a, ops), ExtractLogs(base, b[..n], ops), extra);
    }
  }

  /** One record gives its own stream, or nothing when it is skipped. */
  lemma ExtractLogsSingle(base: seq<LabelPair>, rec: Record, ops: LogOps)
    ensures ExtractLogs(base, [rec], ops)
            == if RecordStream(base, rec, ops).Some? then [RecordStream(base, rec, ops).value] else []
  {
    assert [rec][..0] == [];
  }

  /** Each stream holds exactly one entry. */
  lemma {:induction false} ExtractLogsEntries(base: seq<LabelPair>, records: seq<Record>, ops: LogOps)
    ensures forall i :: 0 <= i < |ExtractLogs(base, records, ops)| ==> |ExtractLogs(base, records, ops)[i].entries| == 1
    decreases |records|
  {
    if records != [] {
      ExtractLogsEntries(base, records[..|records| - 1], ops);
    }
  }

  /** Scanning one more pair of a record is one more step from the state scanned so far. */
  lemma ScanPairsPrefix(rec: Record, k: nat, st: RecordState, ops: LogOps)
    requires k < |rec| && ScanPairs(rec[..k], ops) == Some(st)
    ensures ScanPairs(rec[..k + 1], ops) == StepPair(st, rec[k], ops)
  {
    assert rec[..k + 1][..k] == rec[..k];
  }

  /** The joined text after one more encoded pair. */
  lemma JoinedSnoc(parts: seq<string>, p: string)
    ensures Joined(parts + [p]) == Joined(parts) + (if parts != [] then " " else "") + p
  {
    assert (parts + [p])[..|parts|] == parts;
  }

  /** One more record extends the streams by that record's stream, or by nothing when it is skipped. */
  lemma ExtractLogsPrefix(base: seq<LabelPair>, records: seq<Record>, ri: nat, ops: LogOps)
    requires ri < |records|
    ensures ExtractLogs(base, records[..ri + 1], ops)
            == ExtractLogs(base, records[..ri], ops)
               + (if RecordStream(base, records[ri], ops).Some? then [RecordStream(base, records[ri], ops).value] else [])
  {
    assert records[..ri + 1][..ri] == records[..ri];
  }

  // ---------------------------------------------------------------------
  // The loop of `extractLogs`.
  // ---------------------------------------------------------------------

  /** The loop's variables hold what `st` describes: time, labels, line so far, and whether a separator is due. */
  predicate Mirrors(st: RecordState, base: seq<LabelPair>, t: Time, labels: seq<LabelPair>, line: string, needSep: bool)
  {
    t == st.time && labels == base + st.levels && line == Joined(st.pairs) && needSep == (st.pairs != [])
  }

  /**
   * The `switch` on one key of the pair loop; `ok == false` is a
   * `continue RECORD` (a bad timestamp or a failed encoding).
   */
  method ScanKeyval(kv: KeyVal, ops: LogOps, ghost st: RecordState, base: seq<LabelPair>,
                    t: Time, labels: seq<LabelPair>, line: string, needSep: bool)
    returns (ok: bool, t': Time, labels': seq<LabelPair>, line': string, needSep': bool)
    requires Mirrors(st, base, t, labels, line, needSep)
    ensures ok <==> StepPair(st, kv, ops).Some?
    ensures ok ==> Mirrors(StepPair(st, kv, ops).value, base, t', labels', line', needSep')
  {
    ok, t', labels', line', needSep' := true, t, labels, line, needSep;
    if kv.key == "ts" {
      var parsed := ops.parseTime(kv.value);
      if parsed.None? {
        return false, t, labels, line, needSep;
      }
      t' := parsed.value;
    } else if kv.key == "caller" || kv.key == "module" {
    } else if kv.key == "level" {
      labels' := labels + [LabelPair("level", kv.value)];
    } else {
      var encoded := ops.encode(kv);
      if encoded.None? {
        return false, t, labels, line, needSep;
      }
      JoinedSnoc(st.pairs, encoded.value);
      line' := line + (if needSep then " " else "") + encoded.value;
      needSep' := true;
    }
  }

  /**
   * The pair loop of one record: the labels start as the base labels, the
   * line as empty text; a bad timestamp or a failed encoding abandons the
   * record (`continue RECORD`), reported as `kept == false`.
   */
  method ScanRecord(base: seq<LabelPair>, rec: Record, ops: LogOps)
    returns (kept: bool, t: Time, labels: seq<LabelPair>, line: string)
    ensures kept <==> ScanPairs(rec, ops).Some?
    ensures kept ==> && t == ScanPairs(rec, ops).value.time
                     && labels == base + ScanPairs(rec, ops).value.levels
                     && line == Joined(ScanPairs(rec, ops).value.pairs)
  {
    t, labels, line := ZeroTime, base, "";
    var needSep := false;
    ghost var gathered := RecordState(ZeroTime, [], []);
    assert rec[..0] == [];
    assert labels == base + [];
    for ki := 0 to |rec|
      invariant ScanPairs(rec[..ki], ops) == Some(gathered)
      invariant Mirrors(gathered, base, t, labels, line, needSep)
    {
      ScanPairsPrefix(rec, ki, gathered, ops);
      var ok;
      ok, t, labels, line, needSep := ScanKeyval(rec[ki], ops, gathered, base, t, labels, line, needSep);
      if !ok {
        SkippedStaysSkipped(rec, ki + 1, ops);
        return false, t, labels, line;
      }
      gathered := StepPair(gathered, rec[ki], ops).value;
    }
    assert rec[..|rec|] == rec;
    kept := true;
  }

  /**
   * `extractLogs`: for each record, run its pair loop; a kept record ends
   * its line with the newline of `EndRecord` and becomes one stream.
   */
  method ExtractLogsLoop(base: seq<LabelPair>, records: seq<Record>, ops: LogOps) returns (streams: seq<Stream>)
    ensures streams == ExtractLogs(base, records, ops)
  {
    streams := [];
    for ri := 0 to |records|
      invariant streams == ExtractLogs(base, records[..ri], ops)
    {
      ExtractLogsPrefix(base, records, ri, ops);
      var kept, t, labels, line := ScanRecord(base, records[ri], ops);
      if kept {
        line := line + "\n";
        var selector := FmtLabels(labels);
        streams := streams + [Stream(selector, [Entry(t, line)])];
      }
    }
    assert records[..|records|] == records;
  }
}
