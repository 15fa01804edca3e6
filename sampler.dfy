/** The detector's sampler, `get_system_metrics` in utils.py: one snapshot of counters,
    the top three processes by CPU, and up to three records of the Windows System event
    log. The psutil and win32evtlog readings are parameters; a process enumeration and an
    event-log query are modelled by what they returned or raised. */
module Sampler {
  import opened Wrappers
  import opened Processes
  import Ranking

  /** `psutil.disk_io_counters()`: operation counts and byte counts. */
  datatype DiskCounters = DiskCounters(readCount: nat, writeCount: nat, readBytes: nat, writeBytes: nat)

  /** `psutil.net_io_counters()`. */
  datatype NetCounters = NetCounters(bytesSent: nat, bytesRecv: nat)

  datatype Event = Event(source: string, eventId: int)

  /** One event of the batch `ReadEventLog` returned; reading its fields may raise. */
  datatype EventRead = EventOk(event: Event) | EventFailed

  /** The event-log query: `OpenEventLog`/`ReadEventLog` raised, or returned a batch. */
  datatype EventQuery = QueryFailed | Events(batch: seq<EventRead>)

  /** An element of `system_logs`: an event dictionary, or the failure message. */
  datatype LogItem = EventEntry(logName: string, source: string, eventId: int) | Note(text: string)

  /** The dictionary `get_system_metrics` returns; percentages are tenths of a percent. */
  datatype Metrics = Metrics(
    cpu: nat, memory: nat, diskRead: nat, diskWrite: nat, netSent: nat, netRecv: nat,
    logCount: nat, topCpu: seq<ProcessRecord>, systemLogs: seq<LogItem>)

  const FetchFailed: string := "Failed to fetch system logs."
  const EventWindow: nat := 3

  /** The index of the first event whose read fails, or the batch length. */
  function FirstFailure(batch: seq<EventRead>): (k: nat)
    ensures k <= |batch| && (k < |batch| ==> batch[k].EventFailed?)
    ensures forall j | 0 <= j < k :: batch[j].EventOk?
    decreases |batch|
  {
    if batch == [] || batch[0].EventFailed? then 0 else 1 + FirstFailure(batch[1..])
  }

  function EntryOf(e: Event): LogItem {
    EventEntry("System", e.source, e.eventId)
  }

  /** The events the loop reads: the first three of the batch. */
  function Window(batch: seq<EventRead>): seq<EventRead> {
    batch[..Ranking.Min(EventWindow, |batch|)]
  }

  /** What `logs` holds after the try block: an entry for each event read before the first
      failure among the first three, then the failure message if anything raised. */
  function SystemLogs(q: EventQuery): seq<LogItem> {
    match q
    case QueryFailed => [Note(FetchFailed)]
    case Events(batch) =>
      var w := Window(batch);
      var k := FirstFailure(w);
      seq(k, i requires 0 <= i < k => EntryOf(w[i].event)) + (if k < |w| then [Note(FetchFailed)] else [])
  }

  /** The query, or one of the first three event reads, raised. */
  predicate FetchFails(q: EventQuery) {
    q.QueryFailed? || FirstFailure(Window(q.batch)) < |Window(q.batch)|
  }

  /** The event-log loop of `get_system_metrics`. */
  method ReadSystemLogs(q: EventQuery) returns (logs: seq<LogItem>)
    ensures logs == SystemLogs(q)
  {
    logs := [];
    match q {
      case QueryFailed =>
        logs := logs + [Note(FetchFailed)];
      case Events(batch) =>
        var w := batch[..Ranking.Min(EventWindow, |batch|)];
        var i := 0;
        while i < |w|
          invariant i <= FirstFailure(w) && i <= |w|
          invariant logs == seq(i, j requires 0 <= j < i => EntryOf(w[j].event))
        {
          match w[i] {
            case EventFailed =>
              logs := logs + [Note(FetchFailed)];
              return;
            case EventOk(e) =>
              logs := logs + [EntryOf(e)];
          }
          i := i + 1;
        }
    }
  }

  /** At most three items; the failure message appears exactly when something raised, only
      once, and after the event entries already collected, which are the first events of
      the batch in order. */
  lemma SystemLogsShape(q: EventQuery)
    ensures |SystemLogs(q)| <= 3
    ensures FetchFails(q) <==> SystemLogs(q) != [] && SystemLogs(q)[|SystemLogs(q)| - 1] == Note(FetchFailed)
    ensures forall i | 0 <= i < |SystemLogs(q)| - 1 :: SystemLogs(q)[i].EventEntry?
    ensures q.Events? ==> forall i | 0 <= i < |SystemLogs(q)| && SystemLogs(q)[i].EventEntry? ::
      i < |q.batch| && q.batch[i].EventOk? && SystemLogs(q)[i] == EntryOf(q.batch[i].event)
  {
    if q.Events? {
      var w := Window(q.batch);
      var k := FirstFailure(w);
      var logs := SystemLogs(q);
      assert |logs| == k + (if k < |w| then 1 else 0);
      if k == |w| && logs != [] {
        assert logs[|logs| - 1].EventEntry?;
      }
      forall i | 0 <= i < |logs| && logs[i].EventEntry?
        ensures i < |q.batch| && q.batch[i].EventOk? && logs[i] == EntryOf(q.batch[i].event)
      {
        assert i < k;
        assert w[i] == q.batch[i];
      }
    }
  }

  /** `get_system_metrics`: None when an exception escapes the process loop. Disk features
      are byte counts; `log_count` is the number of items in `system_logs`. */
  method GetSystemMetrics(cpu: nat, memory: nat, disk: DiskCounters, net: NetCounters,
                          items: seq<ProcessRead>, q: EventQuery) returns (r: Option<Metrics>)
    ensures r.None? <==> Aborted(items)
    ensures r.Some? ==> r.value == Metrics(cpu, memory, disk.readBytes, disk.writeBytes,
                                           net.bytesSent, net.bytesRecv, |SystemLogs(q)|,
                                           TopCpu(Survivors(items)), SystemLogs(q))
    ensures r.Some? ==> r.value.logCount == |r.value.systemLogs| <= 3 && |r.value.topCpu| <= 3
  {
    var processes := Enumerate(items);
    if processes.None? {
      return None;
    }
    var topCpu := TopCpu(processes.value);
    var logs := ReadSystemLogs(q);
    SystemLogsShape(q);
    r := Some(Metrics(cpu, memory, disk.readBytes, disk.writeBytes, net.bytesSent, net.bytesRecv,
                      |logs|, topCpu, logs));
  }
}
