/** The real-time detector, anomaly_detection.py: the top-process listing
    (`format_processes`), the seven-feature row handed to the scaler and the model, the
    rule that only the label -1 is an anomaly, the `ANOMALY:` block written to the log, and
    the monitoring loop of `main` appending records to the log sink. The fitted scaler and
    Isolation Forest are one opaque function from the feature row to a label. */
module Detector {
  import opened Wrappers
  import opened Text
  import opened Processes
  import Seqs
  import Sampler

  const IdleName: string := "system idle process"
  const NoRelevant: string := "  No relevant processes."

  /** `proc.get("name", "").lower() == "system idle process"`. */
  predicate IsIdle(p: ProcessRecord) {
    Lower(p.name) == IdleName
  }

  /** `f"  {i}. {name} ({cpu}% CPU, {mem}% RAM)"`. */
  function ProcessLine(rank: nat, p: ProcessRecord): string {
    "  " + NatText(rank) + ". " + p.name + " (" + TenthsText(p.cpu) + "% CPU, " + TenthsText(p.memory) + "% RAM)"
  }

  /** The line for the process at (0-based) position `i`: its 1-based position is its rank. */
  function Rendered(i: nat, p: ProcessRecord): Option<string> {
    if IsIdle(p) then None else Some(ProcessLine(i + 1, p))
  }

  /** The list `lines` that `format_processes` builds. */
  function ListingLines(processes: seq<ProcessRecord>): seq<string> {
    Seqs.SelectMap(processes, Rendered)
  }

  /** What `format_processes` returns. */
  function ProcessListing(processes: seq<ProcessRecord>): string {
    var lines := ListingLines(processes);
    if lines == [] then NoRelevant else Join(lines, "\n")
  }

  /** `format_processes`, with its loop. */
  method FormatProcesses(processes: seq<ProcessRecord>) returns (text: string)
    ensures text == ProcessListing(processes)
  {
    var lines: seq<string> := [];
    for i := 0 to |processes|
      invariant lines == ListingLines(processes[..i])
    {
      assert processes[..i + 1][..i] == processes[..i];
      var proc := processes[i];
      if Lower(proc.name) == IdleName {
        continue;
      }
      lines := lines + [ProcessLine(i + 1, proc)];
    }
    assert processes[..|processes|] == processes;
    text := if lines != [] then Join(lines, "\n") else NoRelevant;
  }

  /** One line per non-idle process, in input order, each carrying the process's original
      1-based position as its rank: an idle process, wherever it stands, yields no line and
      leaves its rank unused. */
  lemma ListingExact(processes: seq<ProcessRecord>)
    ensures var p := Seqs.Positions(processes, Rendered);
      && Seqs.StrictlyIncreasing(p)
      && (forall i | 0 <= i < |processes| :: i in p <==> !IsIdle(processes[i]))
      && |ListingLines(processes)| == |p|
      && (forall k | 0 <= k < |p| :: ListingLines(processes)[k] == ProcessLine(p[k] + 1, processes[p[k]]))
  {
    Seqs.PositionsExact(processes, Rendered);
    Seqs.SelectMapAtPositions(processes, Rendered);
  }

  lemma {:induction false} JoinStartsWith(parts: seq<string>, sep: string)
    requires parts != []
    ensures StartsWith(Join(parts, sep), parts[0])
    decreases |parts|
  {
    if |parts| > 1 {
      var rest := sep + Join(parts[1..], sep);
      assert Join(parts, sep) == parts[0] + rest;
      assert (parts[0] + rest)[..|parts[0]|] == parts[0];
    }
  }

  /** A process line starts with two spaces and then the digits of its rank. */
  lemma ProcessLineDigit(rank: nat, p: ProcessRecord)
    ensures |ProcessLine(rank, p)| > 2 && IsDigit(ProcessLine(rank, p)[2])
  {
    var head := NatText(rank);
    var line := ProcessLine(rank, p);
    assert line[2] == ("  " + head)[2] == head[0];
  }

  /** Some line is listed exactly when some process is not idle. */
  lemma ListedIffSomeActive(processes: seq<ProcessRecord>)
    ensures ListingLines(processes) == [] <==> forall i | 0 <= i < |processes| :: IsIdle(processes[i])
  {
    ListingExact(processes);
    var p := Seqs.Positions(processes, Rendered);
    if ListingLines(processes) != [] {
      assert !IsIdle(processes[p[0]]);
    } else {
      forall i | 0 <= i < |processes|
        ensures IsIdle(processes[i])
      {
      }
    }
  }

  /** A listing of at least one line cannot be mistaken for the placeholder. */
  lemma ListedNotPlaceholder(processes: seq<ProcessRecord>)
    requires ListingLines(processes) != []
    ensures Join(ListingLines(processes), "\n") != NoRelevant
  {
    ListingExact(processes);
    var lines := ListingLines(processes);
    var p := Seqs.Positions(processes, Rendered);
    JoinStartsWith(lines, "\n");
    ProcessLineDigit(p[0] + 1, processes[p[0]]);
    assert Join(lines, "\n")[2] == lines[0][2];
    assert NoRelevant[2] == 'N';
  }

  /** The placeholder is printed exactly when no process is left to list: an empty input, or
      one made only of idle processes. */
  lemma PlaceholderIffNoneRelevant(processes: seq<ProcessRecord>)
    ensures ProcessListing(processes) == NoRelevant <==> forall i | 0 <= i < |processes| :: IsIdle(processes[i])
  {
    ListedIffSomeActive(processes);
    if ListingLines(processes) != [] {
      ListedNotPlaceholder(processes);
    }
  }

  /** A feature value: a percentage (in tenths) or a counter. */
  datatype Feature = Percent(tenths: nat) | Count(n: nat)

  /** The one-row DataFrame given to `scaler.transform`: column names with their values,
      in the dictionary's order. */
  function FeatureRow(m: Sampler.Metrics): seq<(string, Feature)> {
    [("cpu_usage", Percent(m.cpu)),
     ("memory_usage", Percent(m.memory)),
     ("disk_io_read", Count(m.diskRead)),
     ("disk_io_write", Count(m.diskWrite)),
     ("network_io_sent", Count(m.netSent)),
     ("network_io_received", Count(m.netRecv)),
     ("log_count", Count(m.logCount))]
  }

  /** `is_anomaly = prediction == -1`. */
  predicate IsAnomaly(prediction: int) {
    prediction == -1
  }

  /** The fixed lines of an alert: the marker, the seven metrics in feature order, and the
      heading of the process section. */
  function AlertHead(m: Sampler.Metrics): seq<string> {
    ["ANOMALY:",
     "CPU: " + TenthsText(m.cpu) + "%",
     "RAM: " + TenthsText(m.memory) + "%",
     "Disk IO Read: " + NatText(m.diskRead),
     "Disk IO Write: " + NatText(m.diskWrite),
     "Network IO Sent: " + NatText(m.netSent),
     "Network IO Received: " + NatText(m.netRecv),
     "Log Count: " + NatText(m.logCount),
     "Top Processes:"]
  }

  /** The message of the warning an alert logs, given the listing of its top processes: the
      f-string's pieces each end in a newline, so it is its lines joined by newlines. */
  function AlertText(m: Sampler.Metrics, listing: string): string {
    Join(AlertHead(m) + [listing], "\n")
  }

  function AlertMessage(m: Sampler.Metrics): string {
    AlertText(m, ProcessListing(m.topCpu))
  }

  function ListingOrPlaceholder(processes: seq<ProcessRecord>): (r: seq<string>)
    ensures r != []
  {
    var lines := ListingLines(processes);
    if lines == [] then [NoRelevant] else lines
  }

  lemma {:induction false} JoinNested(heads: seq<string>, tail: seq<string>, sep: string)
    requires tail != []
    ensures Join(heads + [Join(tail, sep)], sep) == Join(heads + tail, sep)
    decreases |heads|
  {
    if heads == [] {
      assert heads + [Join(tail, sep)] == [Join(tail, sep)];
      assert heads + tail == tail;
    } else {
      JoinNested(heads[1..], tail, sep);
      assert (heads + [Join(tail, sep)])[1..] == heads[1..] + [Join(tail, sep)];
      assert (heads + tail)[1..] == heads[1..] + tail;
    }
  }

  /** Every line of an alert is one of its own: the marker, the CPU, RAM, Disk IO Read, Disk
      IO Write, Network IO Sent, Network IO Received and Log Count lines in that order,
      `Top Processes:`, then one line per listed process (or the placeholder line). */
  lemma AlertMessageLines(m: Sampler.Metrics)
    ensures AlertMessage(m) == Join(AlertHead(m) + ListingOrPlaceholder(m.topCpu), "\n")
  {
    JoinNested(AlertHead(m), ListingOrPlaceholder(m.topCpu), "\n");
  }

  datatype Level = Info | Warning | Error

  function LevelName(level: Level): string {
    match level
    case Info => "INFO"
    case Warning => "WARNING"
    case Error => "ERROR"
  }

  datatype Record = Record(level: Level, message: string)

  /** The detector's log: an append-only sequence of records. */
  class LogSink {
    var records: seq<Record>

    constructor ()
      ensures records == []
    {
      records := [];
    }

    method Log(level: Level, message: string)
      modifies this
      ensures records == old(records) + [Record(level, message)]
    {
      records := records + [Record(level, message)];
    }
  }

  /** The fitted scaler followed by the model: a label for a feature row. */
  type Scorer = seq<(string, Feature)> -> int

  /** `joblib.load` of both artifacts: the scorer, or the text of the exception raised. */
  datatype ModelLoad = Loaded(score: Scorer) | LoadFailed(reason: string)

  /** The warning the loop logs for the sample at position `i`, if it logs one. */
  function AlertFor(score: Scorer): (nat, Sampler.Metrics) -> Option<Record> {
    (i: nat, m: Sampler.Metrics) => if IsAnomaly(score(FeatureRow(m))) then Some(Record(Warning, AlertMessage(m))) else None
  }

  function Alerts(samples: seq<Sampler.Metrics>, score: Scorer): seq<Record> {
    Seqs.SelectMap(samples, AlertFor(score))
  }

  const Started: seq<Record> := [Record(Info, "Model loaded successfully"),
                                 Record(Info, "Starting real-time monitoring with colored output...")]
  const Stopped: Record := Record(Info, "Monitoring stopped by user")

  /** Everything `main` logs over a run whose successive samples are `samples` and that the
      operator interrupts after the last of them. */
  function RunLog(load: ModelLoad, samples: seq<Sampler.Metrics>): seq<Record> {
    match load
    case LoadFailed(reason) => [Record(Error, "Failed to load model or scaler: " + reason)]
    case Loaded(score) => Started + Alerts(samples, score) + [Stopped]
  }

  /** The alerts of one more sample: those of the samples before it, then its own. */
  lemma AlertsSnoc(samples: seq<Sampler.Metrics>, i: nat, score: Scorer)
    requires i < |samples|
    ensures Alerts(samples[..i + 1], score) == Alerts(samples[..i], score) + AlertOf(score, samples[i])
  {
    assert samples[..i + 1][..i] == samples[..i];
  }

  /** What one sample adds to the log: its alert when it is labelled -1, nothing otherwise. */
  function AlertOf(score: Scorer, m: Sampler.Metrics): seq<Record> {
    if IsAnomaly(score(FeatureRow(m))) then [Record(Warning, AlertMessage(m))] else []
  }

  /** One pass of the monitoring loop over a collected sample. */
  method Monitor(score: Scorer, metrics: Sampler.Metrics, sink: LogSink)
    modifies sink
    ensures sink.records == old(sink.records) + AlertOf(score, metrics)
  {
    var prediction := score(FeatureRow(metrics));
    var isAnomaly := prediction == -1;
    if isAnomaly {
      var listing := FormatProcesses(metrics.topCpu);
      sink.Log(Warning, AlertText(metrics, listing));
    }
  }

  /** The monitoring loop: each sample in turn is scored and, when anomalous, alerted. */
  method MonitorAll(score: Scorer, samples: seq<Sampler.Metrics>, sink: LogSink)
    modifies sink
    ensures sink.records == old(sink.records) + Alerts(samples, score)
  {
    for i := 0 to |samples|
      invariant sink.records == old(sink.records) + Alerts(samples[..i], score)
    {
      AlertsSnoc(samples, i, score);
      Monitor(score, samples[i], sink);
    }
    assert samples[..|samples|] == samples;
  }

  /** `main`: load the model, then score each sample and log an alert for each anomaly. */
  method Run(load: ModelLoad, samples: seq<Sampler.Metrics>, sink: LogSink)
    modifies sink
    ensures sink.records == old(sink.records) + RunLog(load, samples)
  {
    if load.LoadFailed? {
      sink.Log(Error, "Failed to load model or scaler: " + load.reason);
      return;
    }
    Monitoring(load.score, samples, sink);
  }

  /** `main` once both artifacts are loaded: announce, monitor, and log the interrupt. */
  method Monitoring(score: Scorer, samples: seq<Sampler.Metrics>, sink: LogSink)
    modifies sink
    ensures sink.records == old(sink.records) + (Started + Alerts(samples, score) + [Stopped])
  {
    sink.Log(Info, "Model loaded successfully");
    sink.Log(Info, "Starting real-time monitoring with colored output...");
    ghost var started := sink.records;
    assert started == old(sink.records) + Started;
    MonitorAll(score, samples, sink);
    sink.Log(Info, "Monitoring stopped by user");
  }

  /** A record kept when picking out the WARNING records. */
  function WarningOf(r: Record): Option<Record> {
    if r.level == Warning then Some(r) else None
  }

  /** The WARNING records of a sequence of records, in order. */
  function Warnings(records: seq<Record>): seq<Record> {
    Seqs.FilterMap(records, WarningOf)
  }

  /** Over a run, the alerts logged are one per sample labelled -1, in input order, each the
      `ANOMALY:` block of its own sample; a sample with any other label logs nothing. When
      loading the model fails the loop never runs: one error record and no alert. */
  lemma RunAlerts(load: ModelLoad, samples: seq<Sampler.Metrics>)
    ensures load.LoadFailed? ==>
      && |RunLog(load, samples)| == 1
      && Warnings(RunLog(load, samples)) == []
      && RunLog(load, samples)[0].level == Error
    ensures load.Loaded? ==>
      var p := Seqs.Positions(samples, AlertFor(load.score));
      var alerts := Warnings(RunLog(load, samples));
      && Seqs.StrictlyIncreasing(p)
      && (forall i | 0 <= i < |samples| :: i in p <==> IsAnomaly(load.score(FeatureRow(samples[i]))))
      && |alerts| == |p|
      && (forall k | 0 <= k < |p| :: alerts[k] == Record(Warning, AlertMessage(samples[p[k]])))
  {
    if load.Loaded? {
      var select := AlertFor(load.score);
      var alerts := Alerts(samples, load.score);
      Seqs.PositionsExact(samples, select);
      Seqs.SelectMapAtPositions(samples, select);
      Seqs.FilterMapAll(alerts, WarningOf);
      Seqs.FilterMapAppend(Started, alerts, WarningOf);
      Seqs.FilterMapAppend(Started + alerts, [Stopped], WarningOf);
    } else {
      Seqs.FilterMapNone(RunLog(load, samples), WarningOf);
    }
  }
}
