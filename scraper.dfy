/**
 * The scraper itself (internal/scraper/scraper.go:27-57, 59-154, 194-227,
 * 258-336): building a scraper from a check, replacing its check, turning
 * one response of the blackbox exporter into a payload, and classifying
 * each scrape for the hysteresis state machine.
 */
module Scraping {
  import opened Common
  import opened Text
  import opened Labels
  import opened ModuleBuilder
  import opened Hysteresis
  import opened Extractor
  import opened Metrics
  import opened Logs

  /** `probeData`: the series and the streams of one scrape. */
  datatype ProbeData = ProbeData(ts: seq<TimeSeries>, streams: seq<Stream>)

  /** What the HTTP round trip to the exporter gave: a failure to build or send the request, or a response body. */
  datatype Fetch = RequestFailed | Response(body: Body)

  /** The errors `collectData` returns. */
  datatype ScrapeError = RequestError | ExtractError | SeriesFailed(cause: SeriesError)

  /** `errors.Is(err, errCheckFailed)`. */
  predicate IsCheckFailed(err: ScrapeError)
  {
    err == SeriesFailed(CheckFailed)
  }

  /**
   * The library decoders `collectData` relies on: the exposition-format
   * decoder over the metrics block, the logfmt decoder over the logs block,
   * and the float and logfmt calls made while converting them.
   */
  datatype Decoders = Decoders(metrics: string -> Decoded, logs: string -> seq<Record>,
                               floats: FloatOps, logOps: LogOps)

  /**
   * `collectData` once the response is in: extract the two blocks, convert
   * the logs, then the metrics. A payload is missing exactly when the
   * request or the extraction failed; otherwise it carries the streams of
   * every kept log record, whatever the metrics gave, and the error is the
   * metrics conversion's. A failed check keeps at most one series.
   */
  function Collect(base: seq<LabelPair>, t: int, fetch: Fetch, dec: Decoders)
    : (r: (Option<ProbeData>, Option<ScrapeError>))
    ensures r.0.None? <==> r.1 == Some(RequestError) || r.1 == Some(ExtractError)
    ensures r.1 == Some(RequestError) <==> fetch.RequestFailed?
    ensures fetch.Response? && fetch.body.readErrorAt.None? ==>
              && r.0.Some?
              && r.0.value.streams == ExtractLogs(base, dec.logs(ExtractBlocks(fetch.body).value.1), dec.logOps)
    ensures r.1 == Some(SeriesFailed(CheckFailed)) ==> r.0.Some? && |r.0.value.ts| <= 1
  {
    match fetch
    case RequestFailed => (None, Some(RequestError))
    case Response(body) =>
      match ExtractBlocks(body)
      case Err(_) => (None, Some(ExtractError))
      case Ok(blocks) =>
        var streams := ExtractLogs(base, dec.logs(blocks.1), dec.logOps);
        var series := ExtractTimeseries(t, dec.metrics(blocks.0), base, dec.floats);
        (Some(ProbeData(series.0, streams)), if series.1.Some? then Some(SeriesFailed(series.1.value)) else None)
  }

  /**
   * A failed probe is reported with its payload: the failing instance's
   * series, and the log streams that explain the failure.
   */
  lemma CollectCheckFailed(base: seq<LabelPair>, t: int, fetch: Fetch, dec: Decoders)
    requires Collect(base, t, fetch, dec).1 == Some(SeriesFailed(CheckFailed))
    ensures fetch.Response? && ExtractBlocks(fetch.body).Ok?
    ensures var d := dec.metrics(ExtractBlocks(fetch.body).value.0);
            exists j :: 0 <= j < |Instances(d.families)| && SignalsFailure(Instances(d.families)[j])
    ensures Collect(base, t, fetch, dec).0.Some? && |Collect(base, t, fetch, dec).0.value.ts| <= 1
  {
    var d := dec.metrics(ExtractBlocks(fetch.body).value.0);
    ExtractTimeseriesCheckFailed(t, d, base, dec.floats);
  }

  /** `Scraper`; the exporter URL, the publish channel and the logger are not modelled. */
  class Scraper {
    var probeName: string
    var checkName: string
    var endpoint: string
    var check: Check
    var probeModule: ProbeModule
    var moduleName: string

    /** The value `New` assembles. */
    constructor (probeName: string, checkName: string, endpoint: string, check: Check,
                 probeModule: ProbeModule, moduleName: string)
      ensures this.probeName == probeName && this.checkName == checkName && this.endpoint == endpoint
      ensures this.check == check && this.probeModule == probeModule && this.moduleName == moduleName
    {
      this.probeName := probeName;
      this.checkName := checkName;
      this.endpoint := endpoint;
      this.check := check;
      this.probeModule := probeModule;
      this.moduleName := moduleName;
    }

    /** `Update`: only the check is replaced; the module built from the old check stays. */
    method Update(check: Check)
      modifies this
      ensures this.check == check
      ensures probeName == old(probeName) && checkName == old(checkName) && endpoint == old(endpoint)
      ensures probeModule == old(probeModule) && moduleName == old(moduleName)
    {
      this.check := check;
    }

    /** The base labels of `collectData` (:320-329): the four fixed labels, then one per check label. */
    method CollectBaseLabels() returns (labels: seq<LabelPair>)
      ensures labels == BaseLabels(check.id, checkName, endpoint, probeName, check.labels)
    {
      labels := [ LabelPair("check_id", FormatInt(check.id)),
                  LabelPair("check_name", checkName),
                  LabelPair("endpoint", endpoint),
                  LabelPair("probe", probeName) ];
      ghost var fixed := labels;
      var own := check.labels;
      for k := 0 to |own|
        invariant labels == fixed + CheckLabels(own[..k])
      {
        var l := own[k];
        var pair := LabelPair("label_" + l.name, l.value);
        CheckLabelsSnoc(own[..k], l);
        assert own[..k + 1] == own[..k] + [l];
        ConcatAssoc(fixed, CheckLabels(own[..k]), [pair]);
        labels := labels + [pair];
      }
      assert own[..|own|] == own;
    }

    /**
     * `collectData` after the round trip: the extraction, the base labels,
     * the logs and the series; the scrape time is in nanoseconds.
     */
    method CollectData(t: int, fetch: Fetch, dec: Decoders) returns (payload: Option<ProbeData>, err: Option<ScrapeError>)
      ensures (payload, err) == Collect(BaseLabels(check.id, checkName, endpoint, probeName, check.labels), t, fetch, dec)
    {
      if fetch.RequestFailed? {
        return None, Some(RequestError);
      }
      var blocks := ExtractMetricsAndLogs(fetch.body);
      if blocks.Err? {
        return None, Some(ExtractError);
      }
      var (metrics, logs) := blocks.value;
      var baseLabels := CollectBaseLabels();
      var streams := ExtractLogsLoop(baseLabels, dec.logs(logs), dec.logOps);
      var ts, seriesErr := ExtractTimeseriesLoop(t, dec.metrics(metrics), baseLabels, dec.floats);
      payload := Some(ProbeData(ts, streams));
      err := if seriesErr.Some? then Some(SeriesFailed(seriesErr.value)) else None;
    }
  }

  /**
   * `New`: the module, target and names of the check's settings, or no
   * scraper and the "unsupported change" error.
   */
  method New(check: Check, probeName: string) returns (s: Scraper?, err: Option<BuildError>)
    ensures s == null <==> BuildModule(check).Err?
    ensures err == if s == null then Some(UnsupportedChange) else None
    ensures s != null ==>
              && fresh(s) && s.check == check && s.probeName == probeName
              && BuildModule(check).value == Built(s.endpoint, s.checkName, s.moduleName, s.probeModule)
  {
    var timeoutNs := check.timeout * 1_000_000;
    var target, checkName, moduleName, prober := "", "", "", "";
    var icmp, http, dns := ZeroIcmp, ZeroHttp, ZeroDns;
    if check.settings.ping.Some? {
      var ping := check.settings.ping.value;
      prober := "icmp";
      checkName := "ping";
      var proto := IpVersionToIpProtocol(ping.ipVersion);
      icmp := IcmpProbe(proto.0, proto.1);
      moduleName := ModuleName(prober, proto.0, check.id);
      target := ping.hostname;
    } else if check.settings.http.Some? {
      var settings := check.settings.http.value;
      prober := "http";
      checkName := "http";
      var proto := IpVersionToIpProtocol(settings.ipVersion);
      var headers := ParseHeaders(settings.headers);
      http := HttpProbe(proto.0, proto.1, settings.httpMethod, settings.body, MapOf(headers));
      moduleName := ModuleName(prober, proto.0, check.id);
      target := settings.url;
    } else if check.settings.dns.Some? {
      var settings := check.settings.dns.value;
      checkName := "dns";
      var proto := IpVersionToIpProtocol(settings.ipVersion);
      dns := DnsProbe(proto.0, proto.1, settings.name, settings.recordType, "udp");
      target := settings.server;
    } else {
      return null, Some(UnsupportedChange);
    }
    s := new Scraper(probeName, checkName, target, check, ProbeModule(prober, timeoutNs, icmp, http, dns), moduleName);
    err := None;
  }

  // ---------------------------------------------------------------------
  // The scrape step of `Run` (:202-224).
  // ---------------------------------------------------------------------

  /** Whether a scrape's outcome reaches the state machine and the publisher. */
  predicate Counts(err: Option<ScrapeError>)
  {
    err.None? || IsCheckFailed(err.value)
  }

  /**
   * The counters after one scrape: a check failure fails, success passes,
   * any other error changes nothing. With a non-negative threshold a
   * successful scrape leaves the machine not failing and a check failure
   * leaves it not passing.
   */
  function AfterScrape(c: Counters, err: Option<ScrapeError>): (r: Counters)
    ensures r.threshold == c.threshold
    ensures err.None? && c.threshold >= 0 ==> !Failing(r)
    ensures err.Some? && IsCheckFailed(err.value) && c.threshold >= 0 ==> !Passing(r)
    ensures !Counts(err) ==> r == c
  {
    if err.None? then AfterPass(c) else if IsCheckFailed(err.value) then AfterFail(c) else c
  }

  /**
   * One scrape: classify the error of `collectData`, step the state machine
   * (reporting whether its callback fired), and publish the payload unless
   * the error was neither nothing nor a check failure.
   */
  method ScrapeStep(sm: CheckStateMachine, payload: Option<ProbeData>, err: Option<ScrapeError>)
    returns (published: Option<ProbeData>, fired: bool)
    modifies sm
    ensures sm.State() == AfterScrape(old(sm.State()), err)
    ensures fired == (Counts(err) && Fires(old(sm.State()), err.None?))
    ensures published == if Counts(err) then payload else None
  {
    if err.Some? && IsCheckFailed(err.value) {
      fired := sm.Fail();
    } else if err.Some? {
      return None, false;
    } else {
      fired := sm.Pass();
    }
    published := payload;
  }

  /** The counters after a sequence of scrapes. */
  function RunScrapes(c: Counters, errs: seq<Option<ScrapeError>>): Counters
  {
    if errs == [] then c else AfterScrape(RunScrapes(c, errs[..|errs| - 1]), errs[|errs| - 1])
  }

  /** The pass/fail outcomes of the scrapes that count, in order. */
  function Outcomes(errs: seq<Option<ScrapeError>>): (r: seq<bool>)
    ensures |r| <= |errs|
  {
    if errs == [] then []
    else
      var last := errs[|errs| - 1];
      Outcomes(errs[..|errs| - 1]) + (if Counts(last) then [last.None?] else [])
  }

  /**
   * Scrapes that fail for any reason other than a failed probe are
   * invisible to the hysteresis: the counters are those of the remaining
   * outcomes alone.
   */
  lemma {:induction false} OtherErrorsInvisible(c: Counters, errs: seq<Option<ScrapeError>>)
    ensures RunScrapes(c, errs) == RunOutcomes(c, Outcomes(errs))
    decreases |errs|
  {
    if errs != [] {
      var init := errs[..|errs| - 1];
      var last := errs[|errs| - 1];
      OtherErrorsInvisible(c, init);
      if Counts(last) {
        var o := Outcomes(init) + [last.None?];
        assert o[..|o| - 1] == Outcomes(init) && o[|o| - 1] == last.None?;
        assert Outcomes(errs) == o;
      } else {
        assert Outcomes(errs) == Outcomes(init) + [];
        assert Outcomes(init) + [] == Outcomes(init);
      }
    }
  }

  /**
   * From the zero state machine, a request error between two failed probes
   * does not break their run: with threshold 1 the second failure fires.
   */
  lemma InterruptedFailuresExample()
    ensures var errs := [Some(SeriesFailed(CheckFailed)), Some(RequestError), Some(SeriesFailed(CheckFailed))];
            RunScrapes(Counters(0, 0, 1), errs) == Counters(0, 2, 1)
  {
    var errs := [Some(SeriesFailed(CheckFailed)), Some(RequestError), Some(SeriesFailed(CheckFailed))];
    assert errs[..2][..1] == errs[..1] && errs[..1][..0] == [];
    assert RunScrapes(Counters(0, 0, 1), errs[..1]) == Counters(0, 1, 1);
    assert RunScrapes(Counters(0, 0, 1), errs[..2]) == Counters(0, 1, 1);
  }

  /**
   * An HTTP check end to end: a dump holding only a metrics section with
   * an untyped `probe_success` of 1 and a `probe_duration_seconds` of 0.5
   * gives their two series under the base labels, no log stream and no
   * error.
   */
  lemma EndToEndExample(t: int, dec: Decoders)
    requires dec.metrics(Block(["probe_success 1", "probe_duration_seconds 0.5"]))
             == TwoUntyped(0x3FF0_0000_0000_0000, 0x3FE0_0000_0000_0000)
    requires dec.logs("") == []
    ensures var base := BaseLabels(7, "http", "https://example.com", "p1", []);
            var body := Body([MetricsHeader, "probe_success 1", "probe_duration_seconds 0.5", ""], None);
            Collect(base, t, Response(body), dec)
            == (Some(ProbeData([MakeTimeseries(t, 0x3FF0_0000_0000_0000, [LabelPair("__name__", "probe_success")] + base),
                                MakeTimeseries(t, 0x3FE0_0000_0000_0000, [LabelPair("__name__", "probe_duration_seconds")] + base)],
                               [])), None)
  {
    var base := BaseLabels(7, "http", "https://example.com", "p1", []);
    var lines := ["probe_success 1", "probe_duration_seconds 0.5"];
    MetricsOnly([], lines, []);
    assert [] + [MetricsHeader] + lines + [""] + [] == [MetricsHeader, "probe_success 1", "probe_duration_seconds 0.5", ""];
    TwoUntypedSeries(t, base, dec.floats, 0x3FF0_0000_0000_0000, 0x3FE0_0000_0000_0000);
  }
}
