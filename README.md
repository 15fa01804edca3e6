# DetectionofAnomalies — a verified model of its core

DetectionofAnomalies is a set of Python scripts that watch a machine for unusual load:

- `collect_metrics.py` samples CPU, memory, disk and network counters and writes them to
  `baseline_data.csv`. Each sample also carries recent error-level log lines and the top
  processes.
- `train_model.py` checks that the CSV has the seven feature columns, projects the table onto
  them, and fits a scaler and an Isolation Forest.
- `anomaly_detection.py` samples the machine in a loop (through `get_system_metrics` in
  `utils.py`) and scores each sample. When the model labels a sample `-1`, it logs an
  `ANOMALY:` block. The block lists the metrics and the top processes.
- `log_analyzer.py` reads such a log back and groups its lines into entries and anomaly
  blocks. It extracts each block's metrics and process listing, then counts which process
  tokens show up most often.

This project models that logic in Dafny and proves what it promises. Operating-system
readings, library calls and the fitted model become parameters. Each module corresponds to a
source file:

| module (file) | source |
|---|---|
| `Processes` (processes.dfy) | the process-enumeration loop and the `sorted(...)[:3]` rankings shared by utils.py and collect_metrics.py |
| `Ranking` (ranking.dfy) | `sorted(s, key=k, reverse=True)[:n]` as a stable insertion sort cut to `n` |
| `Sampler` (sampler.dfy) | `get_system_metrics` in utils.py |
| `Collector` (collector.dfy) | `get_system_data`, `collect_metrics` and the progress line in collect_metrics.py |
| `Trainer` (trainer.dfy) | the column check, the `missing` list, the projection and the contamination default in train_model.py |
| `Detector` (detector.dfy) | `format_processes`, the feature row, the verdict, the alert text and the `main` loop in anomaly_detection.py |
| `LogAnalyzer` (log_analyzer.dfy) | `parse_log_file` and the anomaly-row filter in log_analyzer.py |
| `ProcessStats` (process_stats.dfy) | `analyze_processes` in log_analyzer.py |
| `Pipeline` (round_trip.dfy) | how the scripts fit together: matching feature columns, and an alert parsed back after it was logged |
| `Text`, `Seqs`, `Wrappers` | the Python string operations used, generic sequence filters, and `Option` |

Modelling choices:

- **Number text.** CPU and memory percentages are whole numbers of tenths of a percent.
  `str()` of such a float is `TenthsText` ("12.5"), and `float()` reads back the forms `D+`
  and `D+.D`.
- **Loops are methods.** Each loop the source runs becomes a method with a `while` or `for`
  loop. Its `ensures` ties the result to a specification function: `Survivors`,
  `SystemLogs`, `ProcessListing`, `Group`, `Extract` or `Analysis`, among others. The
  properties are then proved about those functions.
- **The log sink is a class.** The detector's log is the class `Detector.LogSink`, an
  append-only sequence of records.
- **Grouping is checked against a second definition.** The grouping loop of
  `parse_log_file` is specified by a fold (`Scan`). The fold is proved equal to `Reference`,
  which is built differently: the plain entries of the header lines before the first anomaly
  header, then one block per anomaly header, holding the lines up to the next one.
- **Exceptions are outcomes.** A `NoSuchProcess`, a failed command, an unreadable log file
  or an `IndexError` is a constructor of an input or a result datatype.
- **Parameters replace I/O and libraries.** The scaler plus Isolation Forest is one scorer
  function from a feature row to an integer label. The operating-system counters, the
  command output and the event-log batch are also parameters.

## Model

| member | source | states |
|---|---|---|
| Processes.Enumerate | utils.py:11-20 | the enumeration loop keeps the records that were read and skips NoSuchProcess/AccessDenied; any other exception aborts the whole call |
| Processes.SurvivorsExact | utils.py:12-20 | a process appears among the survivors exactly when it was read without error, once, in enumeration order; no idle filtering happens here |
| Processes.RankingSpec | utils.py:23 | a `[:3]` ranking holds min(3, n) enumerated records in non-increasing key order; no left-out record outranks a kept one; equal keys keep enumeration order |
| Ranking.SortDescSorted | utils.py:23 | the descending sort puts keys in non-increasing order |
| Ranking.SortDescStable | utils.py:23 | the sort keeps the original relative order of elements with equal keys (Python's sort is stable) |
| Ranking.TopSorted | collect_metrics.py:46-47 | the first `n` after sorting are in non-increasing order and are drawn from the input (multiset inclusion) |
| Ranking.TopDominates | collect_metrics.py:46-47 | no element left out of the first `n` has a larger key than any element kept |
| Ranking.TopStable | log_analyzer.py:93 | among equal keys, the kept elements are the earliest ones of the input, in input order |
| Ranking.TopRanks | log_analyzer.py:93 | the length, order, origin, dominance and stability of `sorted(...)[:n]`, together |
| Sampler.ReadSystemLogs | utils.py:26-38 | the event-log loop produces exactly `SystemLogs` of the query outcome |
| Sampler.SystemLogsShape | utils.py:26-38 | at most 3 items; "Failed to fetch system logs." appears exactly when the query or one of the first three reads raised, exactly once, as the last item; every earlier item is the entry of the batch event at the same position |
| Sampler.GetSystemMetrics | utils.py:5-52 | disk features are byte counts; `top_processes.cpu` is the CPU ranking of the survivors; `log_count == len(system_logs) <= 3`; an uncaught enumeration exception gives no result |
| Collector.GetSystemData | collect_metrics.py:20-55 | the command runs first, then the process loop; the result equals `SystemDataOf` for every platform, command outcome and enumeration |
| Collector.SystemDataCases | collect_metrics.py:22-55 | on success the logs are the first min(5, n) output lines and both rankings come from the same survivors; an unsupported OS gives `["Unsupported OS"]` and still ranks; a CalledProcessError gives `["Error: Log retrieval failed"]` and any other failure `["Error: Data collection failed"]`, both with empty rankings |
| Collector.SystemDataRankings | collect_metrics.py:46-47 | `top_cpu` is non-increasing in CPU and `top_mem` in memory, and both are drawn from the surviving processes |
| Collector.CollectMetrics | collect_metrics.py:57-76 | disk features are operation counts; `log_count` is the number of returned log lines, at most 5; the row holds the sample's readings and the system data |
| Collector.ProgressLine | collect_metrics.py:88-92 | the progress line starts with the 1-based sample number and the CPU, and ends with the first `top_cpu` name, or `None` when the ranking is empty |
| Trainer.MissingExact | train_model.py:37-38 | `missing` holds exactly the feature columns absent from the header, each once, in feature-list order; it is empty exactly when all seven are present |
| Trainer.ProjectKeepsColumns | train_model.py:43 | the projection has exactly the seven feature columns in the listed order, each with the same cells as the input column of that name |
| Trainer.ProjectIdempotent | train_model.py:43 | projecting an already projected table changes nothing |
| Trainer.TrainCases | train_model.py:26-58 | training stops with a non-empty `missing` list, before anything is fitted or saved, exactly when a feature column is absent; otherwise it fits on the projection with the configured contamination, or 0.0001 without one |
| Detector.FormatProcesses | anomaly_detection.py:23-32 | the loop's text equals `ProcessListing` of its input |
| Detector.ListingExact | anomaly_detection.py:25-31 | there is exactly one line per non-idle process, in input order; each line carries the process's original 1-based position as its rank, so an idle process leaves a gap in the numbering |
| Detector.PlaceholderIffNoneRelevant | anomaly_detection.py:26-32 | the text is `"  No relevant processes."` exactly when every process is idle (including an empty input) |
| Detector.AlertMessageLines | anomaly_detection.py:80-88 | the alert message consists of `ANOMALY:`, the CPU, RAM, Disk IO Read, Disk IO Write, Network IO Sent, Network IO Received and Log Count lines in that order, `Top Processes:`, then the listing's lines, joined by newlines |
| Detector.LogSink.Log | anomaly_detection.py:14-21 | logging appends one record with its level and message and keeps every earlier record |
| Detector.Monitor | anomaly_detection.py:47-88 | one pass logs exactly the sample's alert when the label is -1, and nothing otherwise |
| Detector.MonitorAll | anomaly_detection.py:46-90 | the loop appends exactly the alerts of the samples, in order |
| Detector.Monitoring | anomaly_detection.py:38-93 | after a successful load, the log gains the two start records, the alerts, then the stop record |
| Detector.Run | anomaly_detection.py:34-93 | `main` appends exactly `RunLog`: one error record when loading fails, otherwise the start records, the alerts and the stop record |
| Detector.RunAlerts | anomaly_detection.py:35-90 | the WARNING records of a run are one per sample labelled -1, in input order, each the `ANOMALY:` block of its own sample; a failed load logs one error and no alert |
| Text.ParseIntOfNatText | log_analyzer.py:68 | `int(str(n))` recovers `n` for every non-negative `n` |
| Text.ParseTenthsOfText | log_analyzer.py:58 | `float(str(x))` recovers every one-decimal `x` |
| Text.Find | log_analyzer.py:29 | `s.find(sub)` gives the first position where `sub` occurs, or none exactly when it occurs nowhere |
| Text.FirstWord | log_analyzer.py:88 | `split()[0]` raises exactly when the text is all whitespace; otherwise it is the first word: a non-empty run without whitespace that follows only whitespace and ends at whitespace or at the end of the text |
| LogAnalyzer.MatchHeaderSound | log_analyzer.py:14-18 | a successful match splits the line into a timestamp of the fixed shape, `" - "`, a non-empty word-character level, `" - "` and a message that runs to the end of the line or to a newline |
| LogAnalyzer.MatchHeaderComplete | log_analyzer.py:14-18 | conversely, every line of that shape matches, with exactly those groups |
| LogAnalyzer.GroupLines | log_analyzer.py:20-47 | the grouping loop over the `rstrip`ped lines produces exactly `Group` of the file's lines |
| LogAnalyzer.GroupIsReference | log_analyzer.py:21-47 | the loop's grouping equals the reference grouping (plain entries before the first anomaly header, then one block per anomaly header holding the lines up to the next); a block is open exactly when an anomaly header has been read |
| LogAnalyzer.GroupTrace | log_analyzer.py:26-47 | one anomaly entry per anomaly header, in file order, with that header; every later line that is not an anomaly header lands in exactly one block's details, in file order; plain entries carry no details and come first, with non-matching lines before the first block dropped |
| LogAnalyzer.GroupMarked | log_analyzer.py:26-40 | after grouping no metric is set, and an entry is a block exactly when its message contains `ANOMALY:` |
| LogAnalyzer.ReadDetail | log_analyzer.py:55-74 | a `CPU:`/`RAM:`/`Log Count:` line sets its own field when its value parses and leaves the others alone; a failed parse changes nothing; a `Top Processes:` line is reported and changes nothing |
| LogAnalyzer.ExtractMetrics | log_analyzer.py:53-74 | the extraction pass over one entry gives exactly `Extract` of it |
| LogAnalyzer.ExtractSpec | log_analyzer.py:55-73 | for each metric, extraction keeps the value of the last line before the first `Top Processes:` line that carries it and parses, or the entry's own value when there is none; the listing is the stripped newline-join of the lines after that line |
| LogAnalyzer.ExtractStopsAtTop | log_analyzer.py:71-74 | lines after the first `Top Processes:` line, metric lines included, change no metric |
| LogAnalyzer.ParseLogFile | log_analyzer.py:7-75 | a missing or unreadable file gives no table; a readable one gives its grouped entries, each extracted in place |
| LogAnalyzer.ParseShape | log_analyzer.py:20-75 | the table has `PlainCount` plain rows, then blocks; a row is a block exactly when its message contains the marker; only blocks carry a listing |
| LogAnalyzer.AnomalyRowsAreBlocks | log_analyzer.py:108 | the `str.contains("ANOMALY:")` filter selects exactly the anomaly blocks, that is, the table after its leading plain rows |
| ProcessStats.CountLines | log_analyzer.py:87-90 | the inner loop extends the counts by the tokens of one listing, or reports the IndexError of its first blank line |
| ProcessStats.AnalyzeProcesses | log_analyzer.py:77-95 | `analyze_processes` ends exactly as `Analysis` says: no process data, IndexError, or the top-5 report of the tally |
| ProcessStats.AnalysisCases | log_analyzer.py:79-88 | "no process data" happens exactly when there are no anomaly rows or no `top_processes` column; otherwise the count fails exactly when some listing line is blank |
| ProcessStats.TokenBlank | log_analyzer.py:88 | `line.strip().split()[0]` raises exactly when the line is empty or all whitespace |
| ProcessStats.TokensExact | log_analyzer.py:86-88 | one token per listing line, in order, the first word of that line; the tokens exist exactly when every line has one |
| ProcessStats.TallyExact | log_analyzer.py:84-90 | each distinct token appears once in the tally, in first-seen order, with its number of occurrences; every token counted appears |
| ProcessStats.TallyTotal | log_analyzer.py:84-90 | the counts add up to the number of listing lines counted |
| ProcessStats.ReportRanksTally | log_analyzer.py:93-95 | the report holds min(5, distinct tokens) entries in non-increasing count order, drawn from the tally; no left-out token has a higher count than a reported one; ties keep first-seen order |
| ProcessStats.ListingColumnOfAnomalies | log_analyzer.py:79 | on a parsed table, the anomaly rows have a `top_processes` value exactly when the whole table has one |
| Pipeline.FeatureRowHasTrainingColumns | anomaly_detection.py:50-58 | the detector's feature row names exactly the training columns of train_model.py, in the same order |
| Pipeline.BaselineHeaderTrains | collect_metrics.py:60-76 | the header of the rows `collect_metrics` builds lacks none of the training columns |
| Pipeline.AlertLinesJoin | anomaly_detection.py:80-88 | the alert's lines joined by newlines are the record the formatter writes: timestamp, `WARNING`, then the alert message |
| Pipeline.AlertLinesOneLine | anomaly_detection.py:80-88 | when no process name holds a newline, no line of the alert does |
| Pipeline.GroupAlert | log_analyzer.py:20-47 | the lines of a logged alert group into one anomaly block, whose details are the message's lines after `ANOMALY:` |
| Pipeline.ExtractAlert | log_analyzer.py:53-74 | extraction reads back the alert's CPU, RAM and log count, and the stripped `format_processes` listing |
| Pipeline.AlertRoundTrip | log_analyzer.py:7-75 | parsing a logged alert gives one anomaly row carrying the CPU, RAM and log count the detector logged and its stripped process listing |
| Pipeline.SplitLinesJoin | log_analyzer.py:87 | `splitlines()` of non-empty lines without line breaks joined by `"\n"` gives back those lines |
| Pipeline.PlaceholderReadBack | anomaly_detection.py:32 | the stripped placeholder of an empty ranking reads back as the one line `No relevant processes.` |
| Pipeline.RankToken | anomaly_detection.py:31 | the token `line.strip().split()[0]` of a line `format_processes` writes is the rank with its dot, such as `1.`, and not the process name |
| Pipeline.TrimmedRankToken | anomaly_detection.py:31 | the same holds for that line without its two leading spaces, as the first line of a stripped listing is |
| Pipeline.TrimmedReadBack | log_analyzer.py:85-87 | listing lines joined, stripped and split again come back unchanged except the first, which loses its two leading spaces |
| Pipeline.ListingTokens | anomaly_detection.py:23-32 | a stripped listing reads back as the placeholder line when no process is listed, and otherwise as one line per listed process whose token is that process's 1-based rank |
| Pipeline.AlertTokens | log_analyzer.py:84-88 | in the row parsed from a logged alert, line `k` of the listing has as token the rank of the `k`-th listed process (`1.`, `3.`, ...), never its name, so `analyze_processes` tallies ranks; without listed processes the listing is the placeholder line (process names taken to be free of line breaks) |

## Left out

- Operating-system readings: psutil counters, `cpu_percent(interval=1)`, the `wevtutil`/`journalctl` commands and `win32evtlog` are parameters. Their results are given as values, and their failures as constructors.
- sklearn and joblib: the scaler and the Isolation Forest are one scorer from the feature row to an integer label. Fitting and saving are reduced to the `Fit` outcome of `Trainer.Train`. The random state and `n_jobs` are not modelled.
- Floating point: percentages are whole tenths. `round(..., 1)` is assumed already applied. `float()` accepts only `D+` and `D+.D`, so exponents, signs, `inf`, `nan` and more than one decimal are read as failures.
- `int()`: accepts an optional sign and ASCII digits. Underscores and non-ASCII digits are not modelled.
- Case folding: `lower()` is modelled on ASCII letters only. No non-ASCII character folds into the ASCII name `system idle process`, so the idle check is unaffected.
- Regular expression: `\d` and `\w` are modelled as ASCII digits and ASCII word characters, where Python's `re` also accepts other Unicode digits and letters; a header whose timestamp uses non-ASCII digits is read as a non-header line. The log lines are the input; how text-mode reading splits them (`\r`, `\r\n`) is not modelled.
- Timestamps and the clock: `datetime.now()`, `asctime` and `isoformat` are opaque strings given as parameters.
- `time.sleep` and the monitoring interval are not modelled. `KeyboardInterrupt` is the end of the sample sequence: the operator interrupts after the last sample.
- Console output is not modelled: the colorama/ANSI alert printout (anomaly_detection.py:67-77) and the messages of `print`. The prints of `analyze_processes` are its `Outcome`.
- The sampler inside the detector loop is not modelled: `Detector.Run` receives the collected samples. An exception escaping `get_system_metrics` would end `main`, and the model does not cover that.
- `analyze_logs` (log_analyzer.py:97-187) is not modelled beyond the anomaly-row filter: timestamp conversion, the statistics prints and the matplotlib plots are I/O. Its early return on an empty table is not modelled either.
- pandas: the table is a sequence of entries, and a missing cell is `None`. As a result, `'top_processes' not in columns` becomes "no entry has a listing", and a `NaN` listing becomes `None`.
- The `collect_metrics.main` loop is not modelled: the 1000-sample loop, `json.dumps` of `log_samples`, and CSV reading and writing are file I/O. Only the column order of the rows is kept (`Collector.CsvColumns`).
- `config.py` is not part of this model. `DETECTION_SETTINGS` is a map parameter (`Trainer.Contamination`).
- `email_reporter.py` is not modelled: it is SMTP/MIME plumbing.
- The log files differ: the detector writes `anomaly_detection.log` (anomaly_detection.py:18), but the analyzer reads `anomalies.log` (log_analyzer.py:102). The model keeps them apart and connects them only through `Pipeline.AlertRoundTrip` and `Pipeline.AlertTokens`.
- The two samplers disagree, and the model keeps the difference. Disk features are byte counts at detection (`Sampler.GetSystemMetrics`) but operation counts at training (`Collector.CollectMetrics`). `log_count` counts System events of any severity in one and error/critical output lines in the other.
