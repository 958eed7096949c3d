/**
 * The debug-dump section extractor `extractMetricsAndLogs`
 * (internal/scraper/scraper.go:554-614): a three-state, line-oriented
 * scanner that copies the lines of the "Logs for the probe:" and
 * "Metrics that would have been returned:" sections into two buffers.
 * The body arrives already split into lines (what `bufio.Scanner` yields).
 */
module Extractor {
  import opened Common

  const LogsHeader: string := "Logs for the probe:"
  const MetricsHeader: string := "Metrics that would have been returned:"

  /**
   * The response body as the line scanner delivers it. `readErrorAt` is
   * `Some(k)` when a read fails: the scanner records the error during the
   * call to `Scan` that delivers line `k` (counting from 0), or, for
   * `k >= |lines|`, during the final call that ends the loop.
   */
  datatype Body = Body(lines: seq<string>, readErrorAt: Option<nat>)

  /** The scanner's error, returned as is. */
  datatype ReadError = ReadError

  /** `extractorState`. */
  datatype ScanState = LookingForHeader | InLogs | InMetrics

  /** The state and the two blocks gathered so far. */
  datatype Scan = Scan(state: ScanState, metrics: string, logs: string)

  /** One line either continues the scan or ends it (`break SCAN`). */
  datatype Step = Continue(next: Scan) | Stop

  /** Where a scan over some lines ends, whether it broke out early, and the lines after the one it broke on. */
  datatype Outcome = Outcome(scan: Scan, stopped: bool, rest: seq<string>)

  /**
   * The effect of one line. The scan stops only on a blank line inside a
   * section once both blocks are non-empty, nothing is copied while
   * looking for a header, and a blank line always leaves the section.
   */
  function StepLine(s: Scan, line: string): (r: Step)
    ensures r.Stop? <==> s.state != LookingForHeader && line == "" && |s.logs| > 0 && |s.metrics| > 0
    ensures r.Continue? && s.state == LookingForHeader ==> r.next.metrics == s.metrics && r.next.logs == s.logs
    ensures r.Continue? && line == "" ==> r.next.state == LookingForHeader
  {
    match s.state
    case LookingForHeader =>
      if line == LogsHeader then Continue(s.(state := InLogs))
      else if line == MetricsHeader then Continue(s.(state := InMetrics))
      else Continue(s)
    case _ =>
      if line == "" then
        if |s.logs| > 0 && |s.metrics| > 0 then Stop else Continue(s.(state := LookingForHeader))
      else if s.state == InLogs then Continue(s.(logs := s.logs + line + "\n"))
      else Continue(s.(metrics := s.metrics + line + "\n"))
  }

  /**
   * The scan over the remaining lines: blocks only grow, an early stop needs
   * both blocks non-empty, and fewer lines are left after the stopping
   * line than were given (none when the scan ran to the end).
   */
  function ScanFrom(s: Scan, lines: seq<string>): (o: Outcome)
    ensures s.metrics <= o.scan.metrics && s.logs <= o.scan.logs
    ensures o.stopped ==> |o.scan.metrics| > 0 && |o.scan.logs| > 0
    ensures o.stopped ==> |o.rest| < |lines|
    ensures !o.stopped ==> o.rest == []
    decreases |lines|
  {
    if lines == [] then Outcome(s, false, [])
    else match StepLine(s, lines[0])
      case Stop => Outcome(s, true, lines[1..])
      case Continue(n) => ScanFrom(n, lines[1..])
  }

  /**
   * Whether `s.Err()` reports the read error after the loop: always when
   * the loop ran to the end, and after an early stop only when the error was
   * recorded no later than the call that delivered the stopping line.
   */
  predicate ErrorSeen(body: Body, o: Outcome)
  {
    body.readErrorAt.Some? && (!o.stopped || body.readErrorAt.value < |body.lines| - |o.rest|)
  }

  /**
   * `extractMetricsAndLogs`: the metrics block and the logs block, or the
   * scanner's error. Without a read error it always succeeds; an error
   * recorded before the first line is always returned.
   */
  function ExtractBlocks(body: Body): (r: Result<(string, string), ReadError>)
    ensures body.readErrorAt.None? ==> r.Ok?
    ensures body.readErrorAt == Some(0) ==> r.Err?
  {
    var o := ScanFrom(Scan(LookingForHeader, "", ""), body.lines);
    if ErrorSeen(body, o) then Err(ReadError) else Ok((o.scan.metrics, o.scan.logs))
  }

  /** The text a section's data lines leave in their block: each line followed by a newline. */
  function Block(lines: seq<string>): string
  {
    if lines == [] then "" else lines[0] + "\n" + Block(lines[1..])
  }

  predicate NoBlank(lines: seq<string>)
  {
    forall i :: 0 <= i < |lines| ==> lines[i] != ""
  }

  predicate NoHeader(lines: seq<string>)
  {
    forall i :: 0 <= i < |lines| ==> lines[i] != LogsHeader && lines[i] != MetricsHeader
  }

  /** The scan with `data` appended to the block the state selects. */
  function Append(s: Scan, data: string): Scan
  {
    if s.state == InLogs then s.(logs := s.logs + data) else s.(metrics := s.metrics + data)
  }

  /** Outside a section, lines other than the two headers are ignored. */
  lemma {:induction false} SkipOutside(s: Scan, junk: seq<string>, more: seq<string>)
    requires s.state == LookingForHeader && NoHeader(junk)
    ensures ScanFrom(s, junk + more) == ScanFrom(s, more)
    decreases |junk|
  {
    if junk != [] {
      assert (junk + more)[0] == junk[0];
      assert (junk + more)[1..] == junk[1..] + more;
      SkipOutside(s, junk[1..], more);
    } else {
      assert junk + more == more;
    }
  }

  /** Inside a section every non-blank line, a header line included, is copied with its newline. */
  lemma {:induction false} CopySection(s: Scan, data: seq<string>, more: seq<string>)
    requires s.state != LookingForHeader && NoBlank(data)
    ensures ScanFrom(s, data + more) == ScanFrom(Append(s, Block(data)), more)
    decreases |data|
  {
    if data != [] {
      var line, rest := data[0], data[1..];
      assert (data + more)[0] == line;
      assert (data + more)[1..] == rest + more;
      var n := Append(s, line + "\n");
      assert StepLine(s, line) == Continue(n) by {
        assert line != "";
      }
      CopySection(n, rest, more);
      assert Block(data) == line + "\n" + Block(rest);
      ConcatAssoc(if s.state == InLogs then s.logs else s.metrics, line + "\n", Block(rest));
    } else {
      assert data + more == more;
      assert Append(s, Block(data)) == s;
    }
  }

  /**
   * One complete section: its header, its data lines, then the blank line
   * that ends it. The blank line stops the scan when both blocks are then
   * non-empty; otherwise scanning goes on looking for a header.
   */
  lemma Section(s: Scan, header: string, data: seq<string>, rest: seq<string>)
    requires s.state == LookingForHeader && NoBlank(data)
    requires header == LogsHeader || header == MetricsHeader
    ensures var t := Append(s.(state := if header == LogsHeader then InLogs else InMetrics), Block(data));
            ScanFrom(s, [header] + data + [""] + rest)
            == if |t.logs| > 0 && |t.metrics| > 0 then Outcome(t, true, rest)
               else ScanFrom(t.(state := LookingForHeader), rest)
  {
    var entered := s.(state := if header == LogsHeader then InLogs else InMetrics);
    var lines := [header] + data + [""] + rest;
    assert lines[0] == header && lines[1..] == data + ([""] + rest);
    assert StepLine(s, header) == Continue(entered);
    CopySection(entered, data, [""] + rest);
    assert ([""] + rest)[1..] == rest;
  }

  /** An absent section is no error: with no header line both blocks are empty. */
  lemma NoSections(body: Body)
    requires NoHeader(body.lines)
    ensures ExtractBlocks(body) == if body.readErrorAt.Some? then Err(ReadError) else Ok(("", ""))
  {
    SkipOutside(Scan(LookingForHeader, "", ""), body.lines, []);
    assert body.lines + [] == body.lines;
  }

  /** A dump with two sections regrouped as the scan reads it: the leading junk, then the first section onwards. */
  lemma TwoSectionLayout<T>(junk1: seq<T>, h1: T, xs: seq<T>, e: T, junk2: seq<T>, h2: T, ys: seq<T>, tail: seq<T>)
    ensures junk1 + [h1] + xs + [e] + junk2 + [h2] + ys + [e] + tail
            == junk1 + ([h1] + xs + [e] + (junk2 + ([h2] + ys + [e] + tail)))
  {
    var second := [h2] + ys + [e] + tail;
    var front := junk1 + [h1] + xs + [e];
    ConcatAssoc(front + junk2 + [h2] + ys, [e], tail);
    ConcatAssoc(front + junk2 + [h2], ys, [e] + tail);
    ConcatAssoc(front + junk2, [h2], ys + ([e] + tail));
    ConcatAssoc(front, junk2, second);
    ConcatAssoc(junk1 + [h1] + xs, [e], junk2 + second);
    ConcatAssoc(junk1 + [h1], xs, [e] + (junk2 + second));
    ConcatAssoc(junk1, [h1], xs + ([e] + (junk2 + second)));
    ConcatAssoc([h1] + xs, [e], junk2 + second);
    ConcatAssoc([h1], xs, [e] + (junk2 + second));
    ConcatAssoc([h2] + ys, [e], tail);
    ConcatAssoc([h2], ys, [e] + tail);
  }

  /**
   * The prober's usual dump: a logs section, then a metrics section, each
   * with at least one line. The extractor returns exactly those lines,
   * ignores the lines around the sections, and stops at the blank line
   * closing the metrics section, so what follows has no effect. A read
   * error is returned when the scanner recorded it by the time it delivered
   * that blank line, and has no effect when it comes later.
   */
  lemma LogsThenMetrics(junk1: seq<string>, logLines: seq<string>, junk2: seq<string>,
                        metricLines: seq<string>, tail: seq<string>, readErrorAt: Option<nat>)
    requires NoHeader(junk1) && NoHeader(junk2)
    requires NoBlank(logLines) && NoBlank(metricLines) && |logLines| > 0 && |metricLines| > 0
    ensures var closing := |junk1| + |logLines| + |junk2| + |metricLines| + 3;
            ExtractBlocks(Body(junk1 + [LogsHeader] + logLines + [""] + junk2 + [MetricsHeader]
                               + metricLines + [""] + tail, readErrorAt))
            == if readErrorAt.Some? && readErrorAt.value <= closing then Err(ReadError)
               else Ok((Block(metricLines), Block(logLines)))
  {
    var second := [MetricsHeader] + metricLines + [""] + tail;
    var first := [LogsHeader] + logLines + [""] + (junk2 + second);
    var lines := junk1 + [LogsHeader] + logLines + [""] + junk2 + [MetricsHeader] + metricLines + [""] + tail;
    TwoSectionLayout(junk1, LogsHeader, logLines, "", junk2, MetricsHeader, metricLines, tail);
    var s0 := Scan(LookingForHeader, "", "");
    var s1 := Scan(LookingForHeader, "", Block(logLines));
    var s2 := Scan(InMetrics, Block(metricLines), Block(logLines));
    assert ScanFrom(s0, lines) == ScanFrom(s0, first) by {
      SkipOutside(s0, junk1, first);
    }
    assert ScanFrom(s0, first) == ScanFrom(s1, junk2 + second) by {
      Section(s0, LogsHeader, logLines, junk2 + second);
      assert "" + Block(logLines) == Block(logLines);
    }
    assert ScanFrom(s1, junk2 + second) == ScanFrom(s1, second) by {
      SkipOutside(s1, junk2, second);
    }
    assert ScanFrom(s1, second) == Outcome(s2, true, tail) by {
      Section(s1, MetricsHeader, metricLines, tail);
      assert "" + Block(metricLines) == Block(metricLines);
    }
  }

  /**
   * A read that returns the last lines together with an error: when the
   * scanner records the error while delivering `m`, the early stop on the
   * following blank line still reports it; an error recorded only after the
   * blank line is never seen.
   */
  lemma ReadErrorWithFinalDataExample()
    ensures ExtractBlocks(Body([LogsHeader, "a", "", MetricsHeader, "m", ""], Some(4))) == Err(ReadError)
    ensures ExtractBlocks(Body([LogsHeader, "a", "", MetricsHeader, "m", ""], Some(6))) == Ok(("m\n", "a\n"))
  {
    var lines := [LogsHeader, "a", "", MetricsHeader, "m", ""];
    assert [] + [LogsHeader] + ["a"] + [""] + [] + [MetricsHeader] + ["m"] + [""] + [] == lines;
    assert Block(["m"]) == "m\n" && Block(["a"]) == "a\n";
    LogsThenMetrics([], ["a"], [], ["m"], [], Some(4));
    LogsThenMetrics([], ["a"], [], ["m"], [], Some(6));
  }

  /** A metrics section followed by junk, scanned from the start state, fills the metrics block only. */
  lemma MetricsSection(metricLines: seq<string>, junk2: seq<string>)
    requires NoHeader(junk2) && NoBlank(metricLines)
    ensures ScanFrom(Scan(LookingForHeader, "", ""), [MetricsHeader] + metricLines + [""] + junk2)
            == Outcome(Scan(LookingForHeader, Block(metricLines), ""), false, [])
  {
    var s1 := Scan(LookingForHeader, Block(metricLines), "");
    Section(Scan(LookingForHeader, "", ""), MetricsHeader, metricLines, junk2);
    assert "" + Block(metricLines) == Block(metricLines);
    SkipOutside(s1, junk2, []);
    assert junk2 + [] == junk2;
  }

  /** Junk, then a metrics section, then junk: the scan runs to the end with only the metrics block filled. */
  lemma MetricsOnlyScan(junk1: seq<string>, metricLines: seq<string>, junk2: seq<string>)
    requires NoHeader(junk1) && NoHeader(junk2) && NoBlank(metricLines)
    ensures ScanFrom(Scan(LookingForHeader, "", ""), junk1 + [MetricsHeader] + metricLines + [""] + junk2)
            == Outcome(Scan(LookingForHeader, Block(metricLines), ""), false, [])
  {
    var section := [MetricsHeader] + metricLines + [""] + junk2;
    assert junk1 + [MetricsHeader] + metricLines + [""] + junk2 == junk1 + section;
    SkipOutside(Scan(LookingForHeader, "", ""), junk1, section);
    MetricsSection(metricLines, junk2);
  }

  /** A dump with only the metrics section: that block is returned and the logs block is empty. */
  lemma MetricsOnly(junk1: seq<string>, metricLines: seq<string>, junk2: seq<string>)
    requires NoHeader(junk1) && NoHeader(junk2) && NoBlank(metricLines)
    ensures ExtractBlocks(Body(junk1 + [MetricsHeader] + metricLines + [""] + junk2, None))
            == Ok((Block(metricLines), ""))
  {
    MetricsOnlyScan(junk1, metricLines, junk2);
  }

  /** `bytes.Buffer`, grown by writes. */
  class Buffer {
    var bytes: string

    constructor ()
      ensures bytes == []
    {
      bytes := [];
    }

    function Len(): nat
      reads this
    {
      |bytes|
    }

    method Write(s: string)
      modifies this
      ensures bytes == old(bytes) + s
    {
      bytes := bytes + s;
    }
  }

  /** The scanning loop, writing through `cur` into whichever buffer the state selects. */
  method ExtractMetricsAndLogs(body: Body) returns (r: Result<(string, string), ReadError>)
    ensures r == ExtractBlocks(body)
  {
    var state := LookingForHeader;
    var metrics := new Buffer();
    var logs := new Buffer();
    var cur: Buffer? := null;
    var stopped := false;
    var i := 0;
    while i < |body.lines|
      invariant 0 <= i <= |body.lines|
      invariant metrics != logs
      invariant state == InLogs ==> cur == logs
      invariant state == InMetrics ==> cur == metrics
      invariant ScanFrom(Scan(state, metrics.bytes, logs.bytes), body.lines[i..])
             == ScanFrom(Scan(LookingForHeader, "", ""), body.lines)
    {
      var text := body.lines[i];
      assert body.lines[i..][1..] == body.lines[i + 1..];
      match state {
        case LookingForHeader =>
          if text == LogsHeader {
            state := InLogs;
            cur := logs;
          } else if text == MetricsHeader {
            state := InMetrics;
            cur := metrics;
          }
        case _ =>
          if text == "" {
            if logs.Len() > 0 && metrics.Len() > 0 {
              stopped := true;
              break;
            }
            state := LookingForHeader;
            i := i + 1;
            continue;
          }
          cur.Write(text);
          cur.Write("\n");
      }
      i := i + 1;
    }
    var o := ScanFrom(Scan(LookingForHeader, "", ""), body.lines);
    assert o == Outcome(Scan(state, metrics.bytes, logs.bytes), stopped, if stopped then body.lines[i + 1..] else []);
    if body.readErrorAt.Some? && (!stopped || body.readErrorAt.value <= i) {
      return Err(ReadError);
    }
    return Ok((metrics.bytes, logs.bytes));
  }
}
