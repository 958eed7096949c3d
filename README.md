# Synthetic monitoring scraper, modelled in Dafny

This project models the scraper of the synthetic monitoring agent
(`internal/scraper/scraper.go`). A scraper is built from a check, which is a
ping, HTTP or DNS test of one endpoint. On every tick it asks a blackbox
exporter to run the probe with `debug=true`. It then splits the debug dump
into a logs block and a metrics block, turns the log records into log
streams and the metric families into remote-write time series, and feeds
the outcome to a small hysteresis state machine. That machine tracks
whether the check is passing or failing.

The modules follow the source file's parts:

| file | module | models |
|---|---|---|
| `common.dfy` | `Common` | `Option` and `Result` |
| `text.dfy` | `Text` | `strings.SplitN(…, 2)`, `strings.TrimLeft(…, " ")`, `strconv.FormatInt(…, 10)` and its inverse |
| `labels.dfy` | `Labels` | `labelPair`, `fmtLabels`, the base labels of `collectData` |
| `module_builder.dfy` | `ModuleBuilder` | `New`: the blackbox-exporter module, target and module name a check maps to |
| `hysteresis.dfy` | `Hysteresis` | `checkStateMachine` (`pass`, `fail`, `isPassing`, `isFailing`) |
| `extractor.dfy` | `Extractor` | `extractMetricsAndLogs`: the line scanner over the debug dump |
| `metrics.dfy` | `Metrics` | `makeTimeseries`, `appendDtoToTimeseries`, `extractTimeseries` |
| `logs.dfy` | `Logs` | `extractLogs` |
| `scraper.dfy` | `Scraping` | the `Scraper` object, `New`, `Update`, `collectData`, the scrape step of `Run` |

Library behaviour the scraper depends on is passed in as parameters: the
exposition-format decoder, the logfmt decoder and encoder, `time.Parse`,
`strconv.FormatFloat` and the float conversion of counts. Floats are IEEE
754 bit patterns (`bv64`), and only the comparison with zero is
interpreted. Times are integers counting nanoseconds since the Unix epoch.
Go's zero `time.Time` is `Logs.ZeroTime`.

Each imperative part of the source is a method with loops, proved equal to
a specification function:

- `Labels.FmtLabels` is proved equal to `Labels.FormatLabels`.
- `ModuleBuilder.ParseHeaders` is proved equal to `ModuleBuilder.HeaderMap`.
- `Extractor.ExtractMetricsAndLogs` is proved equal to `Extractor.ExtractBlocks`.
- `Metrics.AppendDtoToTimeseries` and `Metrics.ExtractTimeseriesLoop` are proved equal to `Metrics.DtoSeries` and `Metrics.ExtractTimeseries`.
- `Logs.ExtractLogsLoop` is proved equal to `Logs.ExtractLogs`.
- `Scraping.Scraper.CollectData` is proved equal to `Scraping.Collect`.

The lemmas then state what the source promises about those functions.
`checkStateMachine` and `Scraper` are classes whose methods update their
fields.

Some of the code's behaviour is easy to miss, and the model states it as
the code has it:

- On a failed probe (`probe_success` gauge equal to 0), `extractTimeseries`
  throws away the series gathered so far. It passes `nil` to
  `appendDtoToTimeseries` (`scraper.go:443`), so the payload holds only the
  failing `probe_success` series.
- The DNS branch of `New` sets neither the prober nor the module name
  (`scraper.go:120-133`). Every DNS check therefore has the empty module
  name, and the module built for it has an empty prober.
- A check with several settings is not rejected. `New` takes ping, then
  HTTP, then DNS, in that order of priority (`scraper.go:89-136`). Only a
  check with none of the three is an error.
- `Run` starts from the zero `checkStateMachine` (`scraper.go:200`), so its
  threshold is 0 and the first failure or pass after a change of state
  already fires the callback. The model keeps the threshold as a parameter
  and proves the general behaviour.
- The line scanner may return its last lines together with a read error.
  `extractMetricsAndLogs` reports that error after its loop
  (`scraper.go:609`), also after the early stop on a blank line (`:593`), as
  long as the error was recorded by the time the stopping line was read.
  The body of a response therefore gives the position of the read error,
  `readErrorAt`, and `Extractor.ErrorSeen` decides whether it is reported.

## Model

| member | source | states |
|---|---|---|
| Text.SplitFirst | internal/scraper/scraper.go:109 | `SplitN(h, ":", 2)`: no result exactly when the separator is absent; otherwise a separator-free prefix, the separator and the remainder that rebuild the input |
| Text.SplitFirstOfJoin | internal/scraper/scraper.go:109 | splitting `a + c + b` at `c` when `a` has no `c` gives back `(a, b)` |
| Text.TrimLeftSpaces | internal/scraper/scraper.go:112 | `TrimLeft(s, " ")` is a suffix of `s`, everything removed is a space, and the result does not start with a space |
| Text.FormatInt | internal/scraper/scraper.go:321 | `FormatInt(id, 10)` is non-empty, starts with `-` exactly for negative ids, and is otherwise digits |
| Text.DecimalRoundTrip | internal/scraper/scraper.go:321 | the decimal digits of a natural number read back as that number |
| Text.FormatIntRoundTrip | internal/scraper/scraper.go:321 | parsing the formatted check id gives the id back |
| Text.FormatIntInjective | internal/scraper/scraper.go:321 | two check ids with the same `check_id` label value are equal |
| Labels.FormatLabels | internal/scraper/scraper.go:621-646 | the label text is empty exactly when there are no labels, and is wrapped in braces otherwise |
| Labels.SelectorStep | internal/scraper/scraper.go:632-641 | one turn of the builder loop extends the text of the first i pairs to the text of the first i + 1 |
| Labels.FmtLabels | internal/scraper/scraper.go:621-646 | the builder loop (comma before every pair but the first, `name="value"`, closing brace) produces `FormatLabels` |
| Labels.JoinPairsSnoc | internal/scraper/scraper.go:632-641 | adding a pair appends a comma and `name="value"` to the joined text |
| Labels.PairText | internal/scraper/scraper.go:636-640 | one pair written as `name="value"`; when the name holds no `=` and the value no `"`, it parses back to that pair with nothing left over |
| Labels.JoinPairs | internal/scraper/scraper.go:632-641 | the pairs joined with commas parse back to the pairs when no name holds `=` and no value holds `"` |
| Labels.FormatLabelsRoundTrip | internal/scraper/scraper.go:621-646 | under the same condition, parsing the formatted label set gives the label set back |
| Labels.FormatLabelsNotInjective | internal/scraper/scraper.go:636-640 | values are not escaped: for all names `a`, `b` and values `x`, `y`, the one label `a` with value `x","b="y` formats exactly like the two labels `a="x"` and `b="y"` |
| Labels.CheckLabels | internal/scraper/scraper.go:327-329 | one label per check label, in order, named `label_` + its name, with its value |
| Labels.CheckLabelsSnoc | internal/scraper/scraper.go:327-329 | each loop turn appends exactly the renamed label of the next check label |
| Labels.BaseLabels | internal/scraper/scraper.go:320-329 | `check_id` (whose value parses back to the check id), `check_name`, `endpoint`, `probe`, then the renamed check labels, and nothing else |
| ModuleBuilder.IpVersionToIpProtocol | internal/scraper/scraper.go:69-86 | the protocol is empty exactly for an unrecognised version, `ip4` exactly for V4, `ip6` exactly for V6 and Any, and the fallback is set exactly for Any |
| ModuleBuilder.ModuleName | internal/scraper/scraper.go:95 | a module name `prober_protocol_id` splits back into its three parts when prober and protocol hold no `_` |
| ModuleBuilder.ModuleNameUnique | internal/scraper/scraper.go:95 | two checks with different ids get different module names |
| ModuleBuilder.SplitHeader | internal/scraper/scraper.go:109-113 | a header without `:` is all name with an empty value; otherwise the name is the text before the first `:` and the value is the rest with its leading spaces trimmed |
| ModuleBuilder.HeaderMap | internal/scraper/scraper.go:108-115 | a header name is a key of the map exactly when some header of the list carries that name |
| ModuleBuilder.CarriesStep | internal/scraper/scraper.go:108-115 | a name is carried by a list of headers exactly when its last header or the headers before it carry it |
| ModuleBuilder.HeaderMapLastWins | internal/scraper/scraper.go:108-115 | a header with no later header of the same name keeps its value in the map |
| ModuleBuilder.ParseHeaders | internal/scraper/scraper.go:108-115 | the header loop builds `HeaderMap` of the list |
| ModuleBuilder.Assign | internal/scraper/scraper.go:113 | an assignment to a Go map panics exactly when the map is nil; otherwise the key then maps to the value |
| ModuleBuilder.NilMapLoop | internal/scraper/scraper.go:108-115 | the header loop over a nil map panics exactly when there is at least one header |
| ModuleBuilder.AllocatedMapLoop | internal/scraper/scraper.go:108-115 | the header loop over an allocated empty map never panics and builds `HeaderMap` |
| ModuleBuilder.HeaderMapAsWrittenPanics | internal/scraper/scraper.go:98-115 | the loop as written assigns into the module's nil zero-value headers map, so it panics exactly when the check has at least one header |
| ModuleBuilder.SplitHeaderExample | internal/scraper/scraper.go:109-113 | `X-Probe: yes` splits into `X-Probe` and `yes` |
| ModuleBuilder.NilHeaderMapPanics | internal/scraper/scraper.go:108-115 | one header makes the code as written fail, while the intended map holds it |
| ModuleBuilder.BuildModule | internal/scraper/scraper.go:59-136 | a check maps to a module exactly when it has ping, HTTP or DNS settings; the timeout is the check's milliseconds in nanoseconds |
| ModuleBuilder.BuildModulePing | internal/scraper/scraper.go:67-97 | ping settings give check name `ping`, prober `icmp`, the hostname as target, the ICMP protocol of its IP version, and the module name `ModuleName("icmp", protocol, id)`, which parses back to those three parts |
| ModuleBuilder.BuildModuleHttp | internal/scraper/scraper.go:98-119 | HTTP settings (without ping) give check name `http`, prober `http`, the URL as target, method and body, the headers the loop builds on an allocated map, and the module name `ModuleName("http", protocol, id)`, which parses back to those three parts |
| ModuleBuilder.BuildModuleDns | internal/scraper/scraper.go:120-133 | DNS settings (without ping or HTTP) give check name `dns`, the server as target, query name and type, transport `udp`, and an empty prober and module name |
| ModuleBuilder.DnsModuleNamesCollide | internal/scraper/scraper.go:120-133 | any two DNS checks get the same module name |
| Hysteresis.AfterPass | internal/scraper/scraper.go:175-184 | after a pass the machine is passing exactly when it was already or the pass count reached the threshold, and with a non-negative threshold it is not failing |
| Hysteresis.AfterFail | internal/scraper/scraper.go:164-173 | after a failure the machine is failing exactly when it was already or the failure count reached the threshold, and with a non-negative threshold it is not passing |
| Hysteresis.PassFires | internal/scraper/scraper.go:175-192 | a pass fires the callback exactly when the passes equal the threshold, that is when the machine goes from not passing to passing |
| Hysteresis.FailFires | internal/scraper/scraper.go:164-173 | a fail fires the callback exactly when the failures equal the threshold, that is when the machine goes from not failing to failing |
| Hysteresis.CheckStateMachine.constructor | internal/scraper/scraper.go:158-162 | the zero machine: no passes, no failures, threshold 0 |
| Hysteresis.CheckStateMachine.Fail | internal/scraper/scraper.go:164-173 | resets passes, counts a failure, and reports whether `isFailing` changed |
| Hysteresis.CheckStateMachine.Pass | internal/scraper/scraper.go:175-184 | counts a pass, resets failures, and reports whether `isPassing` changed |
| Hysteresis.Streak | internal/scraper/scraper.go:164-184 | the run of equal outcomes at the end of a history is between 1 and its length |
| Hysteresis.RunFromZero | internal/scraper/scraper.go:164-184 | from the zero counters, after any history only the last outcome's counter is non-zero, and it equals the length of the final run of equal outcomes |
| Hysteresis.FiresOnStreak | internal/scraper/scraper.go:164-184 | the callback fires at a scrape exactly when that scrape makes the final run of equal outcomes threshold + 1 long |
| Hysteresis.ThresholdOneExample | internal/scraper/scraper.go:175-188 | with threshold 1, three passes fire the callback on the second pass only |
| Extractor.StepLine | internal/scraper/scraper.go:574-606 | a line stops the scan exactly when it is blank inside a section and both blocks are non-empty; a line met while looking for a header leaves the blocks alone; a blank line always leaves the section |
| Extractor.ScanFrom | internal/scraper/scraper.go:572-607 | scanning only appends to the two blocks; it stops early only when both blocks are non-empty and then leaves fewer lines than it was given; otherwise it reads every line |
| Extractor.ExtractBlocks | internal/scraper/scraper.go:554-614 | extraction fails only on a read error of the scanner, and always on one recorded before the first line |
| Extractor.SkipOutside | internal/scraper/scraper.go:575-584 | lines that are not a header are ignored while looking for a header |
| Extractor.CopySection | internal/scraper/scraper.go:586-605 | non-blank lines inside a section are copied to its block, each followed by a newline |
| Extractor.Section | internal/scraper/scraper.go:575-597 | a header, its lines and a blank line fill that header's block, then stop if both blocks are non-empty or go back to looking for a header |
| Extractor.NoSections | internal/scraper/scraper.go:554-614 | a dump without headers gives two empty blocks, or the read error |
| Extractor.LogsThenMetrics | internal/scraper/scraper.go:554-614 | a logs section then a metrics section, each ended by a blank line, give exactly their lines as the two blocks, whatever follows; a read error recorded up to the call that delivers the closing blank line is returned instead |
| Extractor.ReadErrorWithFinalDataExample | internal/scraper/scraper.go:593-610 | an error recorded with the last metrics line is still returned after the early stop; one recorded after the stop is not |
| Extractor.MetricsSection | internal/scraper/scraper.go:574-606 | a metrics section and the junk after it, scanned from the start, fill only the metrics block and read every line |
| Extractor.MetricsOnlyScan | internal/scraper/scraper.go:574-606 | junk, a metrics section and junk are scanned to the end with only the metrics block filled |
| Extractor.MetricsOnly | internal/scraper/scraper.go:554-614 | a lone metrics section without a read error gives its lines as the metrics block and an empty logs block |
| Extractor.Buffer.Write | internal/scraper/scraper.go:599-605 | a write appends its text to the buffer |
| Extractor.ExtractMetricsAndLogs | internal/scraper/scraper.go:554-614 | the scanner loop over the two buffers computes `ExtractBlocks` |
| Metrics.TruncDiv | internal/scraper/scraper.go:468 | Go's integer division truncates toward zero, for negative times too |
| Metrics.TimestampMs | internal/scraper/scraper.go:468 | the time in milliseconds truncated toward zero: at most the time for times after the epoch, at least the time before it, and within one millisecond |
| Metrics.MakeTimeseries | internal/scraper/scraper.go:461-472 | a series holds the given labels and one sample at the time in milliseconds with the given value |
| Metrics.QuantileSeries | internal/scraper/scraper.go:515-521 | one series per quantile |
| Metrics.BucketSeries | internal/scraper/scraper.go:540-546 | one series per bucket |
| Metrics.QuantileSeriesAt | internal/scraper/scraper.go:515-521 | the series of quantile i has the labels plus `quantile` = the formatted quantile, and the quantile's value |
| Metrics.BucketSeriesAt | internal/scraper/scraper.go:540-546 | the series of bucket i has the labels plus `le` = the formatted upper bound, and the cumulative count |
| Metrics.SimpleSeries | internal/scraper/scraper.go:484-498 | a counter, gauge or untyped metric gives one series labelled `__name__`, base labels and metric labels exactly when its value is present, and none otherwise |
| Metrics.SummarySeries | internal/scraper/scraper.go:500-523 | a summary with quantiles gives `_sum`, `_count` and one series per quantile; without them it gives nothing |
| Metrics.HistogramSeries | internal/scraper/scraper.go:525-548 | a histogram with buckets gives `_sum`, `_count` and one series per bucket; without them it gives nothing |
| Metrics.DtoSeries | internal/scraper/scraper.go:474-552 | at most one series for a counter, gauge or untyped metric; for a summary or histogram `2 +` the number of quantiles or buckets when they are present, and none otherwise |
| Metrics.DtoSeriesWellLabelled | internal/scraper/scraper.go:474-552 | every series of a metric starts with a `__name__` label followed by the base labels and has one sample at the scrape time |
| Metrics.SummaryWellLabelled | internal/scraper/scraper.go:500-523 | every series of a summary, `_sum` and `_count` included, keeps `__name__` first and the base labels after it |
| Metrics.HistogramWellLabelled | internal/scraper/scraper.go:525-548 | every series of a histogram, `_sum` and `_count` included, keeps `__name__` first and the base labels after it |
| Metrics.AppendDtoToTimeseries | internal/scraper/scraper.go:474-552 | the function appends exactly the series of `DtoSeries` to the given ones |
| Metrics.BuildLabels | internal/scraper/scraper.go:477-482 | the label loop gives `__name__`, then the base labels, then the metric's own labels, in order |
| Metrics.AppendQuantiles | internal/scraper/scraper.go:512-521 | the quantile loop appends one series per quantile, in order, each with the labels plus its `quantile` label |
| Metrics.AppendBuckets | internal/scraper/scraper.go:537-546 | the bucket loop appends one series per bucket, in order, each with the labels plus its `le` label |
| Metrics.FamilyInstances | internal/scraper/scraper.go:437-441 | each metric of a family is seen with the family's name and type, in order |
| Metrics.InstancesAppend | internal/scraper/scraper.go:431-450 | the metrics of two runs of families are those of the first, then those of the second |
| Metrics.SignalsFailure | internal/scraper/scraper.go:439-442 | only a `probe_success` gauge signals a failure, and one without a value does, because it reads as 0 |
| Metrics.FirstFailure | internal/scraper/scraper.go:439-442 | the first `probe_success` gauge metric equal to 0, with no earlier one |
| Metrics.FailureInStream | internal/scraper/scraper.go:431-447 | the failing metric met inside the loop is the first failure of the whole stream |
| Metrics.FailureResult | internal/scraper/scraper.go:442-446 | on the first failing metric the result is only that metric's series, with the check-failed error |
| Metrics.ExtractFailing | internal/scraper/scraper.go:440-446 | on the first failing metric the series gathered so far are dropped, and the result is that metric's series alone |
| Metrics.ExtractFamily | internal/scraper/scraper.go:437-450 | one family's loop either stops with the check-failed result of the whole stream or extends the series of all earlier metrics |
| Metrics.ExtractTimeseries | internal/scraper/scraper.go:412-459 | a stream that does not end cleanly always gives an error; the decode error comes with no series; the check-failed error with at most one series |
| Metrics.ExtractTimeseriesLoop | internal/scraper/scraper.go:412-459 | the decode loop computes `ExtractTimeseries` |
| Metrics.AllSeriesWellLabelled | internal/scraper/scraper.go:441-450 | every gathered series is well labelled |
| Metrics.AllSeriesAppend | internal/scraper/scraper.go:441-450 | the series of two runs of metrics are the series of the first, then those of the second |
| Metrics.ExtractTimeseriesSucceeds | internal/scraper/scraper.go:431-453 | no error exactly when the stream ends cleanly and no metric is a failing `probe_success`; every series is then well labelled |
| Metrics.ExtractTimeseriesDecodeFailed | internal/scraper/scraper.go:455-456 | the decode error is returned exactly when decoding fails before any failing `probe_success`, and then there are no series |
| Metrics.ExtractTimeseriesCheckFailed | internal/scraper/scraper.go:439-447 | the check-failed error is returned exactly when some metric is a failing `probe_success`; the result then holds at most its own series, named `probe_success` with the base labels and the value 0 |
| Metrics.FirstFailureFinds | internal/scraper/scraper.go:438-441 | the search finds a failing metric exactly when the stream holds one |
| Metrics.FailingInstanceSeries | internal/scraper/scraper.go:438-442 | a failing `probe_success` gauge gives at most one series, named `probe_success`, with the base labels and a zero sample |
| Metrics.InstanceFromFamily | internal/scraper/scraper.go:437-441 | every metric seen belongs to some family with its name and type |
| Metrics.OnlyProbeSuccessGaugeFails | internal/scraper/scraper.go:439 | without a family that is a `probe_success` gauge, the check never fails |
| Metrics.TwoUntypedSeries | internal/scraper/scraper.go:412-459 | untyped `probe_success` and `probe_duration_seconds` give their two series in order, with no error |
| Metrics.FailedProbeExample | internal/scraper/scraper.go:439-447 | a duration gauge followed by a `probe_success` gauge of 0 gives only the `probe_success` series and the check-failed error |
| Logs.StepPair | internal/scraper/scraper.go:357-386 | one pair skips the record exactly when it is not accepted (a bad `ts`, a failed encoding); an accepted pair adds at most one label or encoded part, and only `ts` moves the time |
| Logs.ScanPairs | internal/scraper/scraper.go:357-386 | a record gives at most one label or encoded part per pair, and a record without pairs keeps Go's zero time |
| Logs.RecordStream | internal/scraper/scraper.go:388-402 | a kept record gives one stream with one entry whose line ends in a newline, under a non-empty selector whenever there are base labels |
| Logs.ExtractLogs | internal/scraper/scraper.go:338-410 | never more streams than records |
| Logs.Levels | internal/scraper/scraper.go:375-377 | every label taken from a record is named `level` |
| Logs.Kept | internal/scraper/scraper.go:372-384 | the re-encoded pairs come from the record, and none is `ts`, `caller`, `module` or `level` |
| Logs.LastTs | internal/scraper/scraper.go:361-363 | the timestamp used is a `ts` pair of the record, and there is none exactly when no pair is `ts` |
| Logs.DescribesStep | internal/scraper/scraper.go:357-386 | each accepted pair extends the labels, time and line the record has so far |
| Logs.ScanPairsSpec | internal/scraper/scraper.go:346-386 | a record is kept exactly when every timestamp parses and every other pair encodes; its labels, time and line are then those of its pairs |
| Logs.SkippedStaysSkipped | internal/scraper/scraper.go:364-370 | once a pair fails, the rest of the record cannot bring it back |
| Logs.RecordStreamShape | internal/scraper/scraper.go:388-402 | a kept record gives one stream with the base labels plus its levels and one entry at its time |
| Logs.NoTimestampScan | internal/scraper/scraper.go:357-386 | the pairs `level=info msg=ok` keep Go's zero time, the `level` label and the one encoded part `msg=ok` |
| Logs.NoTimestampExample | internal/scraper/scraper.go:348-402 | a record without `ts` gets Go's zero time and its level as a label |
| Logs.ExtractLogsAppend | internal/scraper/scraper.go:346-403 | the streams of two runs of records are the streams of the first, then those of the second |
| Logs.ExtractLogsSingle | internal/scraper/scraper.go:346-403 | a single record gives its stream when kept and nothing when skipped |
| Logs.ExtractLogsEntries | internal/scraper/scraper.go:392-402 | at most one stream per record, each with exactly one entry |
| Logs.ScanKeyval | internal/scraper/scraper.go:360-385 | the `switch` on one key abandons the record exactly when `StepPair` skips it, and otherwise leaves the loop variables holding what `StepPair` describes |
| Logs.ScanRecord | internal/scraper/scraper.go:346-386 | the pair loop of one record keeps it exactly when `ScanPairs` does, with that time, the base labels plus its levels, and its joined pairs |
| Logs.ExtractLogsLoop | internal/scraper/scraper.go:338-410 | the record loop with `continue RECORD` computes `ExtractLogs` |
| Scraping.Collect | internal/scraper/scraper.go:286-336 | no payload exactly when the request or the extraction failed; the request error exactly when the request failed; a response without a read error always yields the streams of its logs block; a check failure keeps at most one series |
| Scraping.CollectCheckFailed | internal/scraper/scraper.go:331-335 | a check-failed error means a response whose metrics hold a failing `probe_success`, and a payload of at most one series |
| Scraping.Scraper.constructor | internal/scraper/scraper.go:143-153 | the scraper holds the given probe, check name, endpoint, check, module and module name |
| Scraping.Scraper.Update | internal/scraper/scraper.go:258-272 | only the check is replaced |
| Scraping.Scraper.CollectBaseLabels | internal/scraper/scraper.go:320-329 | the base-label loop builds `BaseLabels` of the scraper's check |
| Scraping.Scraper.CollectData | internal/scraper/scraper.go:286-336 | one scrape computes `Collect` over the scraper's base labels |
| Scraping.New | internal/scraper/scraper.go:59-154 | no scraper, with the unsupported-change error, exactly when the check has no settings; otherwise a new scraper with the built module, target, check name and module name |
| Scraping.AfterScrape | internal/scraper/scraper.go:205-219 | with a non-negative threshold a successful scrape leaves the machine not failing and a check failure leaves it not passing; any other error leaves it unchanged |
| Scraping.ScrapeStep | internal/scraper/scraper.go:202-224 | a check failure fails the machine, success passes it, and any other error leaves it alone and publishes nothing |
| Scraping.Outcomes | internal/scraper/scraper.go:205-219 | the outcomes that reach the machine are at most one per scrape |
| Scraping.OtherErrorsInvisible | internal/scraper/scraper.go:205-219 | the machine after any run of scrapes is the machine after only its passes and check failures |
| Scraping.InterruptedFailuresExample | internal/scraper/scraper.go:205-213 | a request error between two check failures does not reset the failure count |
| Scraping.EndToEndExample | internal/scraper/scraper.go:286-336 | a dump with only a metrics section of untyped `probe_success 1` and `probe_duration_seconds 0.5` gives those two series under the base labels, no streams and no error |

## Findings

| source | as written | input that shows it | evidently intended | confidence | as-written member | corrected member |
|---|---|---|---|---|---|---|
| internal/scraper/scraper.go:108-115 | `bbeModule.HTTP.Headers` is never allocated, so the header loop writes into a nil map | an HTTP check with one header, `X-Probe: yes` | the map holds `X-Probe` → `yes`, the last value winning for a repeated name | not executed; the zero module value is assumed to carry a nil headers map | ModuleBuilder.HeaderMapAsWrittenPanics | ModuleBuilder.AllocatedMapLoop |

`ModuleBuilder.NilHeaderMapPanics` shows the input of the table: one header makes the loop as written panic, while on an allocated map it gives `X-Probe` → `yes`. `ModuleBuilder.BuildModule` uses the corrected loop, whose map `ModuleBuilder.HeaderMapLastWins` describes.

## Left out

- HTTP: building the exporter URL, the query encoding of `target`, `module` and `debug`, and the request. The result of the round trip is the `Fetch` parameter.
- `tickWithOffset`, the context, the goroutine and the publish channel. The scrape step returns the payload it would publish.
- The logger and every log message. Skipping a record on a bad timestamp or a failed encoding is modelled; the messages are not.
- `Delete`, `GetModuleName`, `GetModuleConfig` and the `probeData` accessors: they do nothing or only return a field.
- The exposition-format decoder and the logfmt decoder and encoder are parameters. The family list and the decode outcome are given as a `Decoded` value.
- Logs.ExtractLogs: the records are those the logfmt decoder yields, a parameter. On a logfmt syntax error inside a record, `ScanKeyval` returns false, the pair loop ends and the record is still emitted with the pairs read before the error (`scraper.go:357`, `:388-402`); the decoder parameter then yields that partial record, and no later one. The end-of-record error and the decoder's final error are only logged by the source.
- Scraping.Scraper.Update: `Run` and `collectData` have value receivers (`scraper.go:194`, `:286`). The scrape closure and `tickWithOffset` (`:202-226`) use the copy taken when `Run` starts, so an `Update` never reaches a running `Run`. The model's `Update` changes the object only.
- `time.Parse` with RFC 3339, `strconv.FormatFloat` and the conversion of counts to floats are parameters. Floats are bit patterns; only zero is interpreted.
- Enum `String()` of the HTTP method and DNS record type: the model holds those names as strings.
- Extractor.ExtractBlocks: the scanner's 64 KiB line limit and its removal of a trailing `\r` are not modelled; the lines and the position of a read error (`readErrorAt`) are given by the body.
- Extractor.Buffer.Write: `bytes.Buffer` writes never fail in Go, so the error branch of the loop is not modelled.
- ModuleBuilder.BuildModule: `time.Duration(check.Timeout) * time.Millisecond` may overflow 64 bits in Go; the model multiplies unbounded integers.
- Hysteresis.CheckStateMachine.Fail: the counters are unbounded integers; Go's `int` wrap-around after 2^63 scrapes is not modelled. The same holds for Pass.
- Metrics.ExtractTimeseries: the decoded families are taken in the order the decoder yields them.
