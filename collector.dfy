/** The training-data collector, collect_metrics.py: `get_system_data` (recent
    error-severity log lines and the top three processes by CPU and by memory, degraded to
    a placeholder on failure), `collect_metrics` (one CSV row) and the per-sample progress
    line. The OS readings and the command's outcome are parameters. */
module Collector {
  import opened Wrappers
  import opened Text
  import opened Processes
  import Ranking
  import Sampler

  /** `platform.system()`. */
  datatype Platform = Windows | Linux | OtherPlatform

  /** `subprocess.check_output(...)` for `wevtutil`/`journalctl`: its output, a
      `CalledProcessError` (non-zero exit), or any other exception (a decoding error, say). */
  datatype CommandRun = Output(text: string) | CalledProcessError | CommandException

  datatype SystemData = SystemData(logs: seq<string>, topCpu: seq<ProcessRecord>, topMem: seq<ProcessRecord>)

  /** One row of `baseline_data.csv`; `data` is what `log_samples` serialises. */
  datatype Sample = Sample(
    timestamp: string, cpu: nat, memory: nat, diskRead: nat, diskWrite: nat,
    netSent: nat, netRecv: nat, logCount: nat, data: SystemData)

  const LogWindow: nat := 5
  const UnsupportedOs: string := "Unsupported OS"
  const RetrievalFailed: string := "Error: Log retrieval failed"
  const CollectionFailed: string := "Error: Data collection failed"

  predicate QueriesLogs(platform: Platform) {
    platform == Windows || platform == Linux
  }

  /** The log lines before truncation, when no exception was raised getting them. */
  function LogLines(platform: Platform, command: CommandRun): seq<string>
    requires !QueriesLogs(platform) || command.Output?
  {
    if QueriesLogs(platform) then SplitLines(command.text) else [UnsupportedOs]
  }

  /** What `get_system_data` returns for a platform, a command outcome and a process
      enumeration: the command runs first, so its failure pre-empts the enumeration. */
  function SystemDataOf(platform: Platform, command: CommandRun, items: seq<ProcessRead>): SystemData {
    if QueriesLogs(platform) && command.CalledProcessError? then SystemData([RetrievalFailed], [], [])
    else if QueriesLogs(platform) && command.CommandException? then SystemData([CollectionFailed], [], [])
    else if Aborted(items) then SystemData([CollectionFailed], [], [])
    else
      var lines := LogLines(platform, command);
      var survivors := Survivors(items);
      SystemData(lines[..Ranking.Min(LogWindow, |lines|)], TopCpu(survivors), TopMemory(survivors))
  }

  /** `get_system_data`, with its process loop. */
  method GetSystemData(platform: Platform, command: CommandRun, items: seq<ProcessRead>) returns (d: SystemData)
    ensures d == SystemDataOf(platform, command, items)
  {
    var logs: seq<string>;
    if QueriesLogs(platform) {
      match command {
        case CalledProcessError => return SystemData([RetrievalFailed], [], []);
        case CommandException => return SystemData([CollectionFailed], [], []);
        case Output(text) => logs := SplitLines(text);
      }
    } else {
      logs := [UnsupportedOs];
    }
    var processes := Enumerate(items);
    if processes.None? {
      return SystemData([CollectionFailed], [], []);
    }
    d := SystemData(logs[..Ranking.Min(LogWindow, |logs|)], TopCpu(processes.value), TopMemory(processes.value));
  }

  /** The degrade-on-failure rules: on success the logs are the first at most five lines and
      both rankings come from the same surviving processes; an unsupported OS still ranks;
      a failed command or any other failure gives one placeholder line and empty rankings. */
  lemma SystemDataCases(platform: Platform, command: CommandRun, items: seq<ProcessRead>)
    ensures var d := SystemDataOf(platform, command, items);
      && |d.logs| <= 5 && |d.topCpu| <= 3 && |d.topMem| <= 3
      && (QueriesLogs(platform) && command.CalledProcessError? ==> d == SystemData([RetrievalFailed], [], []))
      && (QueriesLogs(platform) && command.CommandException? ==> d == SystemData([CollectionFailed], [], []))
      && ((!QueriesLogs(platform) || command.Output?) && Aborted(items) ==> d == SystemData([CollectionFailed], [], []))
      && (QueriesLogs(platform) && command.Output? && !Aborted(items) ==>
            d.logs <= SplitLines(command.text) && |d.logs| == Ranking.Min(5, |SplitLines(command.text)|))
      && (!QueriesLogs(platform) && !Aborted(items) ==> d.logs == [UnsupportedOs])
      && (!Aborted(items) && (!QueriesLogs(platform) || command.Output?) ==>
            d.topCpu == TopCpu(Survivors(items)) && d.topMem == TopMemory(Survivors(items)))
  {
  }

  /** Both rankings are in non-increasing order of their own key, and every record in them
      was enumerated. */
  lemma SystemDataRankings(platform: Platform, command: CommandRun, items: seq<ProcessRead>)
    ensures var d := SystemDataOf(platform, command, items);
      && Ranking.NonIncreasing(d.topCpu, ByCpu) && Ranking.NonIncreasing(d.topMem, ByMemory)
      && multiset(d.topCpu) <= multiset(Survivors(items)) && multiset(d.topMem) <= multiset(Survivors(items))
  {
    var d := SystemDataOf(platform, command, items);
    if d.topCpu != [] || d.topMem != [] {
      Ranking.TopSorted(Survivors(items), ByCpu, RankingSize);
      Ranking.TopSorted(Survivors(items), ByMemory, RankingSize);
    }
  }

  /** `collect_metrics`: disk features are operation counts (utils.py uses byte counts), and
      `log_count` is the number of log lines `get_system_data` returned. */
  method CollectMetrics(timestamp: string, cpu: nat, memory: nat, disk: Sampler.DiskCounters,
                        net: Sampler.NetCounters, platform: Platform, command: CommandRun,
                        items: seq<ProcessRead>) returns (s: Sample)
    ensures s.data == SystemDataOf(platform, command, items)
    ensures s.logCount == |s.data.logs| && s.logCount <= 5
    ensures s.diskRead == disk.readCount && s.diskWrite == disk.writeCount
    ensures s == Sample(timestamp, cpu, memory, disk.readCount, disk.writeCount,
                        net.bytesSent, net.bytesRecv, s.logCount, s.data)
  {
    var data := GetSystemData(platform, command, items);
    SystemDataCases(platform, command, items);
    s := Sample(timestamp, cpu, memory, disk.readCount, disk.writeCount, net.bytesSent, net.bytesRecv,
                |data.logs|, data);
  }

  predicate EndsWith(s: string, suffix: string) {
    |suffix| <= |s| && s[|s| - |suffix|..] == suffix
  }

  /** The progress line logged for sample `i` (counted from 0). */
  function ProgressLine(i: nat, s: Sample): (line: string)
    ensures StartsWith(line, "Sample " + NatText(i + 1) + ": CPU=" + TenthsText(s.cpu) + "%")
    ensures EndsWith(line, " | Top Process: " + if s.data.topCpu == [] then "None" else s.data.topCpu[0].name)
  {
    var head := "Sample " + NatText(i + 1) + ": CPU=" + TenthsText(s.cpu) + "%";
    var tail := " | Top Process: " + if s.data.topCpu == [] then "None" else s.data.topCpu[0].name;
    assert (head + tail)[..|head|] == head;
    assert (head + tail)[|head + tail| - |tail|..] == tail;
    head + tail
  }

  /** The columns of `baseline_data.csv`, in the order of the dictionary `collect_metrics` builds. */
  const CsvColumns: seq<string> := [
    "timestamp", "cpu_usage", "memory_usage", "disk_io_read", "disk_io_write",
    "network_io_sent", "network_io_received", "log_count", "log_samples"]
}
