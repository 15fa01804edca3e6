/** How the scripts fit together: the detector scores rows with the training columns in the
    training order, the baseline CSV's header passes the training check, and an alert the
    detector logs is read back by `parse_log_file` as one anomaly row carrying the alert's
    CPU, RAM and log count and its process listing. */
module Pipeline {
  import opened Wrappers
  import opened Text
  import Seqs
  import opened Processes
  import Sampler
  import Detector
  import Collector
  import Trainer
  import opened LogAnalyzer
  import ProcessStats

  /** The detector's feature row names the training columns, in the same order. */
  lemma FeatureRowHasTrainingColumns(m: Sampler.Metrics)
    ensures |Detector.FeatureRow(m)| == |Trainer.FeatureColumns|
    ensures forall i | 0 <= i < |Trainer.FeatureColumns| :: Detector.FeatureRow(m)[i].0 == Trainer.FeatureColumns[i]
  {
  }

  /** The header `collect_metrics` writes misses none of the training columns. */
  lemma BaselineHeaderTrains()
    ensures Trainer.AllPresent(Collector.CsvColumns)
    ensures Trainer.Missing(Collector.CsvColumns) == []
  {
    Trainer.AbsentEmpty(Trainer.FeatureColumns, Collector.CsvColumns);
  }

  // An alert, as the log file holds it.

  const WarningName: string := "WARNING"

  /** The detail lines of an alert: its message's lines after `ANOMALY:`. */
  function AlertDetails(m: Sampler.Metrics): seq<string> {
    Detector.AlertHead(m)[1..] + Detector.ListingOrPlaceholder(m.topCpu)
  }

  /** The lines the logging formatter (`%(asctime)s - %(levelname)s - %(message)s`) writes
      for an alert stamped `ts`. */
  function AlertLines(ts: string, m: Sampler.Metrics): seq<string> {
    [ts + Separator + WarningName + Separator + Marker] + AlertDetails(m)
  }

  /** A detail line as `parse_log_file` needs it: `rstrip` leaves it alone and it cannot
      be taken for a record header. */
  predicate DetailLine(line: string) {
    line != [] && !IsDigit(line[0]) && !IsSpace(line[|line| - 1])
  }

  lemma JoinPrefix(p: string, parts: seq<string>, sep: string)
    requires parts != []
    ensures Join([p + parts[0]] + parts[1..], sep) == p + Join(parts, sep)
  {
    var q := [p + parts[0]] + parts[1..];
    assert q[0] == p + parts[0] && q[1..] == parts[1..];
    if |parts| > 1 {
      assert Join(q, sep) == (p + parts[0]) + sep + Join(parts[1..], sep);
    }
  }

  lemma DigitsNoNewline(s: string)
    requires AllDigits(s)
    ensures '\n' !in s
  {
    assert forall i | 0 <= i < |s| :: s[i] != '\n';
  }

  lemma TenthsNoNewline(t: nat)
    ensures '\n' !in TenthsText(t)
  {
    TenthsTextShape(t);
    assert forall i | 0 <= i < |TenthsText(t)| :: TenthsText(t)[i] != '\n';
  }

  lemma TimestampNoNewline(ts: string)
    requires TimestampShape(ts)
    ensures '\n' !in ts
  {
    forall i | 0 <= i < |ts|
      ensures ts[i] != '\n'
    {
      assert TimestampMask[i] == 'D' || ts[i] == TimestampMask[i];
    }
  }

  /** A metric line `lead + str(n)`. */
  lemma CountLine(lead: string, n: nat)
    requires lead != [] && !IsDigit(lead[0]) && '\n' !in lead
    ensures DetailLine(lead + NatText(n)) && '\n' !in lead + NatText(n) && (lead + NatText(n))[0] == lead[0]
  {
    var v := NatText(n);
    assert (lead + v)[|lead + v| - 1] == v[|v| - 1];
    DigitsNoNewline(v);
  }

  /** A metric line `lead + str(x) + "%"`. */
  lemma PercentLine(lead: string, t: nat)
    requires lead != [] && !IsDigit(lead[0]) && '\n' !in lead
    ensures var line := lead + TenthsText(t) + "%";
      DetailLine(line) && '\n' !in line && line[0] == lead[0]
  {
    TenthsNoNewline(t);
  }

  /** The fixed detail lines: the seven metrics in feature order, then `Top Processes:`. */
  lemma HeadLines(m: Sampler.Metrics)
    ensures var head := Detector.AlertHead(m)[1..];
      && |head| == 8
      && head[0] == CpuKey + " " + TenthsText(m.cpu) + "%"
      && head[1] == RamKey + " " + TenthsText(m.memory) + "%"
      && head[6] == LogCountKey + " " + NatText(m.logCount)
      && head[7] == TopKey
      && (forall i | 0 <= i < 8 :: DetailLine(head[i]) && '\n' !in head[i])
      && head[0][0] == 'C' && head[1][0] == 'R' && head[2][0] == 'D' && head[3][0] == 'D'
      && head[4][0] == 'N' && head[5][0] == 'N' && head[6][0] == 'L'
  {
    var head := Detector.AlertHead(m)[1..];
    PercentLine("CPU: ", m.cpu);
    PercentLine("RAM: ", m.memory);
    CountLine("Disk IO Read: ", m.diskRead);
    CountLine("Disk IO Write: ", m.diskWrite);
    CountLine("Network IO Sent: ", m.netSent);
    CountLine("Network IO Received: ", m.netRecv);
    CountLine("Log Count: ", m.logCount);
    assert CpuKey + " " == "CPU: ";
    assert RamKey + " " == "RAM: ";
    assert LogCountKey + " " == "Log Count: ";
  }

  /** A line of the process section: it starts with a space and does not end in whitespace. */
  predicate ListedLine(line: string) {
    line != [] && line[0] == ' ' && !IsSpace(line[|line| - 1])
  }

  lemma ProcessLineShape(rank: nat, p: ProcessRecord)
    ensures ListedLine(Detector.ProcessLine(rank, p))
  {
  }

  lemma ProcessLineOneLine(rank: nat, p: ProcessRecord)
    requires '\n' !in p.name
    ensures '\n' !in Detector.ProcessLine(rank, p)
  {
    DigitsNoNewline(NatText(rank));
    TenthsNoNewline(p.cpu);
    TenthsNoNewline(p.memory);
  }

  /** Every line of the process section starts with a space and ends with a character that
      is not whitespace. */
  lemma ListingShape(processes: seq<ProcessRecord>)
    ensures forall k | 0 <= k < |Detector.ListingOrPlaceholder(processes)| ::
      ListedLine(Detector.ListingOrPlaceholder(processes)[k])
  {
    var lines := Detector.ListingLines(processes);
    if lines != [] {
      Detector.ListingExact(processes);
      var pos := Seqs.Positions(processes, Detector.Rendered);
      forall k | 0 <= k < |lines|
        ensures ListedLine(lines[k])
      {
        ProcessLineShape(pos[k] + 1, processes[pos[k]]);
      }
    }
  }

  /** No line of the process section holds a newline when no process name does. */
  lemma ListingOneLine(processes: seq<ProcessRecord>)
    requires forall i | 0 <= i < |processes| :: '\n' !in processes[i].name
    ensures forall k | 0 <= k < |Detector.ListingOrPlaceholder(processes)| ::
      '\n' !in Detector.ListingOrPlaceholder(processes)[k]
  {
    var lines := Detector.ListingLines(processes);
    if lines != [] {
      Detector.ListingExact(processes);
      var pos := Seqs.Positions(processes, Detector.Rendered);
      forall k | 0 <= k < |lines|
        ensures '\n' !in lines[k]
      {
        ProcessLineOneLine(pos[k] + 1, processes[pos[k]]);
      }
    }
  }

  lemma DetailsShape(m: Sampler.Metrics)
    ensures var d := AlertDetails(m);
      && |d| >= 9
      && d[..8] == Detector.AlertHead(m)[1..]
      && d[8..] == Detector.ListingOrPlaceholder(m.topCpu)
      && forall i | 0 <= i < |d| :: DetailLine(d[i])
  {
    var head := Detector.AlertHead(m)[1..];
    var listing := Detector.ListingOrPlaceholder(m.topCpu);
    var d := head + listing;
    HeadLines(m);
    ListingShape(m.topCpu);
    forall i | 0 <= i < |d|
      ensures DetailLine(d[i])
    {
      if i >= 8 {
        assert d[i] == listing[i - 8];
      }
    }
  }

  /** The alert's lines joined by newlines are the record as the logging formatter writes
      it: the timestamp, `WARNING` and the alert's message. */
  lemma AlertLinesJoin(ts: string, m: Sampler.Metrics)
    ensures Join(AlertLines(ts, m), "\n") ==
      ts + Separator + Detector.LevelName(Detector.Warning) + Separator + Detector.AlertMessage(m)
  {
    var parts := Detector.AlertHead(m) + Detector.ListingOrPlaceholder(m.topCpu);
    Detector.AlertMessageLines(m);
    assert parts[0] == Marker && parts[1..] == AlertDetails(m);
    JoinPrefix(ts + Separator + WarningName + Separator, parts, "\n");
  }

  /** An element missing from a first line, from every line of `head` and from every line
      of `rest` is missing from every line of all of them together. */
  lemma LinesAvoid<T>(c: T, first: seq<T>, head: seq<seq<T>>, rest: seq<seq<T>>)
    requires c !in first
    requires forall i | 0 <= i < |head| :: c !in head[i]
    requires forall i | 0 <= i < |rest| :: c !in rest[i]
    ensures var lines := [first] + (head + rest);
      forall i | 0 <= i < |lines| :: c !in lines[i]
  {
    var lines := [first] + (head + rest);
    forall i | 0 <= i < |lines|
      ensures c !in lines[i]
    {
      if 1 <= i <= |head| {
        assert lines[i] == head[i - 1];
      } else if i > |head| {
        assert lines[i] == rest[i - 1 - |head|];
      }
    }
  }

  lemma HeaderLineOneLine(ts: string)
    requires TimestampShape(ts)
    ensures '\n' !in ts + Separator + WarningName + Separator + Marker
  {
    TimestampNoNewline(ts);
  }

  /** When no process name holds a newline, no line of the alert does: joined, they are
      exactly the lines the record takes in the file. */
  lemma AlertLinesOneLine(ts: string, m: Sampler.Metrics)
    requires TimestampShape(ts)
    requires forall i | 0 <= i < |m.topCpu| :: '\n' !in m.topCpu[i].name
    ensures forall i | 0 <= i < |AlertLines(ts, m)| :: '\n' !in AlertLines(ts, m)[i]
  {
    HeaderLineOneLine(ts);
    HeadLines(m);
    ListingOneLine(m.topCpu);
    LinesAvoid('\n', ts + Separator + WarningName + Separator + Marker,
               Detector.AlertHead(m)[1..], Detector.ListingOrPlaceholder(m.topCpu));
  }

  // Reading the lines back.

  /** A line that does not start with a digit is no record header. */
  lemma NoHeader(line: string)
    requires line != [] && !IsDigit(line[0])
    ensures Classify(line) == Continuation
  {
    if |line| >= |TimestampMask| + 3 {
      assert line[..23][0] == line[0];
    }
  }

  lemma MarkerMarked(h: Header)
    requires h.message == Marker
    ensures IsMarked(h)
  {
    assert StartsWith(Marker, Marker);
  }

  lemma ClassifyMarked(line: string, h: Header)
    requires MatchHeader(line) == Some(h) && IsMarked(h)
    ensures Classify(line) == Opening(h)
  {
  }

  lemma AlertHeader(ts: string)
    requires TimestampShape(ts)
    ensures Classify(ts + Separator + WarningName + Separator + Marker) == Opening(Header(ts, WarningName, Marker))
    ensures IsMarked(Header(ts, WarningName, Marker))
  {
    var line := ts + Separator + WarningName + Separator + Marker;
    assert line + [] == line;
    assert AllWordChars(WarningName);
    assert '\n' !in Marker;
    MatchHeaderComplete(ts, WarningName, Marker, []);
    MarkerMarked(Header(ts, WarningName, Marker));
    ClassifyMarked(line, Header(ts, WarningName, Marker));
  }

  lemma StrippedUnchanged(lines: seq<string>)
    requires forall i | 0 <= i < |lines| :: lines[i] != [] && !IsSpace(lines[i][|lines[i]| - 1])
    ensures Stripped(lines) == lines
  {
  }

  /** Lines that make up one anomaly block, with no other header among them, are grouped
      into that block. */
  lemma GroupOneBlock(lines: seq<string>, h: Header)
    requires lines != [] && Classify(lines[0]) == Opening(h)
    requires forall i | 1 <= i < |lines| :: !Classify(lines[i]).Opening?
    requires Stripped(lines) == lines
    ensures Group(lines) == [Block(h, lines[1..])]
  {
    var rest := lines[1..];
    assert forall i | 0 <= i < |rest| :: rest[i] == lines[i + 1];
    assert FirstOpening(rest, Classify) == |rest|;
    assert FirstOpening(lines, Classify) == 0;
    GroupIsReference(lines, Classify);
    BlocksSingle(lines, Classify);
    assert lines[..0] == [] && lines[0..] == lines;
  }

  /** A header line followed by detail lines: nothing to strip, and no header after the
      first line. */
  lemma HeaderThenDetails(first: string, d: seq<string>)
    requires first != [] && !IsSpace(first[|first| - 1])
    requires forall i | 0 <= i < |d| :: DetailLine(d[i])
    ensures var lines := [first] + d;
      && lines[1..] == d
      && (forall i | 0 <= i < |lines| :: lines[i] != [] && !IsSpace(lines[i][|lines[i]| - 1]))
      && (forall i | 1 <= i < |lines| :: !Classify(lines[i]).Opening?)
  {
    var lines := [first] + d;
    forall i | 1 <= i < |lines|
      ensures lines[i] == d[i - 1] && !Classify(lines[i]).Opening?
    {
      NoHeader(d[i - 1]);
    }
  }

  /** The header line of an alert ends with the colon of `ANOMALY:`. */
  lemma HeaderLineEnds(ts: string)
    ensures var first := ts + Separator + WarningName + Separator + Marker;
      first != [] && first[|first| - 1] == ':'
  {
  }

  /** The lines of an alert: an anomaly header, then lines that are neither headers nor
      changed by `rstrip`, which are the message's lines after `ANOMALY:`. */
  lemma AlertLinesShape(ts: string, m: Sampler.Metrics)
    requires TimestampShape(ts)
    ensures var lines := AlertLines(ts, m);
      && lines != [] && Classify(lines[0]) == Opening(Header(ts, WarningName, Marker))
      && (forall i | 1 <= i < |lines| :: !Classify(lines[i]).Opening?)
      && Stripped(lines) == lines
      && lines[1..] == AlertDetails(m)
  {
    var first := ts + Separator + WarningName + Separator + Marker;
    var lines := AlertLines(ts, m);
    DetailsShape(m);
    AlertHeader(ts);
    HeaderLineEnds(ts);
    HeaderThenDetails(first, AlertDetails(m));
    StrippedUnchanged(lines);
  }

  /** `parse_log_file` groups the lines of an alert into one anomaly entry whose details are
      the message's lines after `ANOMALY:`. */
  lemma GroupAlert(ts: string, m: Sampler.Metrics)
    requires TimestampShape(ts)
    ensures Group(AlertLines(ts, m)) == [Block(Header(ts, WarningName, Marker), AlertDetails(m))]
  {
    AlertLinesShape(ts, m);
    GroupOneBlock(AlertLines(ts, m), Header(ts, WarningName, Marker));
  }

  lemma NotPrefix(line: string, key: string)
    requires line != [] && key != [] && line[0] != key[0]
    ensures !StartsWith(line, key)
  {
    if |key| <= |line| {
      assert line[..|key|][0] == line[0];
    }
  }

  /** The text after `key` when it does not occur again. */
  lemma FieldTextOnce(key: string, rest: string)
    requires key != [] && key[0] !in rest
    ensures StartsWith(key + rest, key) && FieldText(key + rest, key) == rest
  {
    var line := key + rest;
    assert line[..|key|] == key;
    assert line[|key|..] == rest;
    AbsentFirstChar(rest, key);
  }

  /** `s.strip()` is `s` when neither end is whitespace. */
  lemma StripSolid(s: string)
    requires s != [] && !IsSpace(s[0]) && !IsSpace(s[|s| - 1])
    ensures Strip(s) == s
  {
    assert "" + s + "" == s;
    StripPadded("", s, "");
  }

  lemma StripLead(s: string)
    requires s != [] && !IsSpace(s[0]) && !IsSpace(s[|s| - 1])
    ensures Strip(" " + s) == s
  {
    assert " " + s + "" == " " + s;
    StripPadded(" ", s, "");
  }

  /** `(" " + v + "%").strip().replace('%', '').strip()` is `v` for a `v` without `%` whose
      ends are not whitespace. */
  lemma PercentText(v: string)
    requires v != [] && !IsSpace(v[0]) && !IsSpace(v[|v| - 1])
    requires forall i | 0 <= i < |v| :: v[i] != '%'
    ensures Strip(Remove(Strip(" " + v + "%"), '%')) == v
  {
    var w := v + "%";
    assert w[0] == v[0] && w[|w| - 1] == '%';
    assert " " + v + "%" == " " + w;
    StripLead(w);
    RemoveSnoc(v, '%');
    StripSolid(v);
  }

  /** `float((" " + str(x) + "%").strip().replace('%', ''))` is `x`. */
  lemma PercentValue(t: nat)
    ensures ParseTenths(Strip(Remove(Strip(" " + TenthsText(t) + "%"), '%'))) == Some(t)
  {
    TenthsTextShape(t);
    PercentText(TenthsText(t));
    ParseTenthsOfText(t);
  }

  lemma PercentAvoids(c: char, t: nat)
    requires c != ' ' && c != '%' && c != '.' && !IsDigit(c)
    ensures c !in " " + TenthsText(t) + "%"
  {
    TenthsTextShape(t);
    assert forall i | 0 <= i < |TenthsText(t)| :: TenthsText(t)[i] != c;
  }

  /** `float(("KEY " + str(x) + "%").split(KEY)[1].strip().replace('%', ''))` is `x`. */
  lemma PercentFieldOf(key: string, t: nat)
    requires key != [] && key[0] != ' ' && key[0] != '%' && key[0] != '.' && !IsDigit(key[0])
    ensures PercentField(key + " " + TenthsText(t) + "%", key) == Some(t)
  {
    var rest := " " + TenthsText(t) + "%";
    PercentAvoids(key[0], t);
    assert key + " " + TenthsText(t) + "%" == key + rest;
    FieldTextOnce(key, rest);
    PercentValue(t);
  }

  /** `int((" " + str(n)).strip())` is `n`. */
  lemma CountValue(n: nat)
    ensures ParseInt(Strip(" " + NatText(n))) == Some(n)
  {
    var v := NatText(n);
    StripLead(v);
    ParseIntOfNatText(n);
  }

  /** `int(("Log Count: " + str(n)).split("Log Count:")[1].strip())` is `n`. */
  lemma CountFieldOf(n: nat)
    ensures CountField(LogCountKey + " " + NatText(n)) == Some(n)
  {
    var rest := " " + NatText(n);
    assert forall i | 0 <= i < |NatText(n)| :: NatText(n)[i] != 'L';
    assert LogCountKey + " " + NatText(n) == LogCountKey + rest;
    FieldTextOnce(LogCountKey, rest);
    CountValue(n);
  }

  /** Of the detail lines of an alert, the eighth is the first "Top Processes:" line. */
  lemma TopIsEighth(d: seq<string>)
    requires |d| >= 8 && IsTopLine(d[7]) && forall j | 0 <= j < 7 :: !IsTopLine(d[j])
    ensures Seqs.First(d, IsTopLine) == 7
  {
    Seqs.FirstAt(d, IsTopLine, 7);
  }

  /** The CPU is the one on the first line when no later line before `n` carries one. */
  lemma CpuFromFirst(d: seq<string>, n: nat, cpu: nat)
    requires 0 < n <= |d| && CpuField(d[0]) == Some(cpu) && forall j | 0 < j < n :: CpuField(d[j]).None?
    ensures Seqs.LastBefore(d, n, CpuField) == Some(cpu)
  {
    Seqs.LastBeforeAt(d, n, CpuField, 0);
  }

  /** The RAM is the one on the second line when no later line before `n` carries one. */
  lemma RamFromSecond(d: seq<string>, n: nat, memory: nat)
    requires 1 < n <= |d| && RamField(d[1]) == Some(memory) && forall j | 1 < j < n :: RamField(d[j]).None?
    ensures Seqs.LastBefore(d, n, RamField) == Some(memory)
  {
    Seqs.LastBeforeAt(d, n, RamField, 1);
  }

  /** The log count is the one on the line just before `n`. */
  lemma CountFromLast(d: seq<string>, n: nat, logCount: int)
    requires 0 < n <= |d| && CountField(d[n - 1]) == Some(logCount)
    ensures Seqs.LastBefore(d, n, CountField) == Some(logCount)
  {
  }

  /** No key but its own matches a metric line, and none of them is the "Top Processes:"
      line; `d` starts with the metric lines, recognised by their first characters. */
  lemma MetricLeads(d: seq<string>)
    requires |d| >= 7 && forall j | 0 <= j < 7 :: d[j] != []
    requires d[0][0] == 'C' && d[1][0] == 'R' && d[2][0] == 'D' && d[3][0] == 'D'
    requires d[4][0] == 'N' && d[5][0] == 'N' && d[6][0] == 'L'
    ensures forall j | 0 <= j < 7 :: !IsTopLine(d[j])
    ensures forall j | 0 < j < 7 :: CpuField(d[j]).None?
    ensures forall j | 1 < j < 7 :: RamField(d[j]).None?
  {
    forall j | 0 <= j < 7
      ensures !IsTopLine(d[j]) && (j > 0 ==> CpuField(d[j]).None?) && (j > 1 ==> RamField(d[j]).None?)
    {
      var c := d[j][0];
      assert c == 'C' || c == 'R' || c == 'D' || c == 'N' || c == 'L';
      assert j > 0 ==> c != 'C';
      assert j > 1 ==> c != 'R';
      NotPrefix(d[j], TopKey);
      if j > 0 {
        NotPrefix(d[j], CpuKey);
      }
      if j > 1 {
        NotPrefix(d[j], RamKey);
      }
    }
  }

  /** The CPU and RAM are read from the first two detail lines. */
  lemma HeadPercents(m: Sampler.Metrics)
    ensures var d := AlertDetails(m);
      |d| >= 8 && CpuField(d[0]) == Some(m.cpu) && RamField(d[1]) == Some(m.memory)
  {
    var d := AlertDetails(m);
    DetailsShape(m);
    HeadLines(m);
    assert d[0] == Detector.AlertHead(m)[1..][0] && d[1] == Detector.AlertHead(m)[1..][1];
    PercentFieldOf(CpuKey, m.cpu);
    PercentFieldOf(RamKey, m.memory);
  }

  /** The log count is read from the seventh detail line. */
  lemma HeadCount(m: Sampler.Metrics)
    ensures var d := AlertDetails(m); |d| >= 8 && CountField(d[6]) == Some(m.logCount)
  {
    var d := AlertDetails(m);
    DetailsShape(m);
    HeadLines(m);
    assert d[6] == Detector.AlertHead(m)[1..][6];
    CountFieldOf(m.logCount);
  }

  /** The "Top Processes:" line is the eighth detail line and no metric line before it is
      read by another metric's key. */
  lemma HeadLeads(m: Sampler.Metrics)
    ensures var d := AlertDetails(m);
      && |d| >= 8 && IsTopLine(d[7]) && (forall j | 0 <= j < 7 :: !IsTopLine(d[j]))
      && (forall j | 0 < j < 7 :: CpuField(d[j]).None?)
      && (forall j | 1 < j < 7 :: RamField(d[j]).None?)
  {
    var d := AlertDetails(m);
    var head := Detector.AlertHead(m)[1..];
    DetailsShape(m);
    HeadLines(m);
    assert forall i | 0 <= i < 8 :: d[i] == head[i];
    MetricLeads(d);
  }

  /** Where the extraction pass finds the fields of an alert's details: the top heading
      is the eighth line, and the metric lines before it carry the sample's values. */
  lemma AlertFieldsRead(m: Sampler.Metrics)
    ensures var d := AlertDetails(m);
      && Seqs.First(d, IsTopLine) == 7 && 7 < |d|
      && Seqs.LastBefore(d, 7, CpuField) == Some(m.cpu)
      && Seqs.LastBefore(d, 7, RamField) == Some(m.memory)
      && Seqs.LastBefore(d, 7, CountField) == Some(m.logCount)
  {
    var d := AlertDetails(m);
    HeadPercents(m);
    HeadCount(m);
    HeadLeads(m);
    TopIsEighth(d);
    CpuFromFirst(d, 7, m.cpu);
    RamFromSecond(d, 7, m.memory);
    CountFromLast(d, 7, m.logCount);
  }

  /** The details after the top heading are the listing `format_processes` returned. */
  lemma ListingAfterTop(m: Sampler.Metrics)
    ensures var d := AlertDetails(m);
      |d| >= 9 && Join(d[8..], "\n") == Detector.ProcessListing(m.topCpu)
  {
    DetailsShape(m);
    var d := AlertDetails(m);
    assert d[8..] == Detector.ListingOrPlaceholder(m.topCpu);
  }

  /** Extraction reads the alert's CPU, RAM and log count from their lines and keeps the
      process listing, stripped. */
  lemma ExtractAlert(h: Header, m: Sampler.Metrics)
    ensures var r := Extract(Block(h, AlertDetails(m)));
      && r.cpu == Some(m.cpu) && r.memory == Some(m.memory) && r.logCount == Some(m.logCount)
      && r.topProcesses == Some(Strip(Detector.ProcessListing(m.topCpu)))
  {
    var d := AlertDetails(m);
    AlertFieldsRead(m);
    ListingAfterTop(m);
    ExtractAt(Block(h, d), 7);
    ExtractTop(Block(h, d), 7);
  }

  /** Round trip: the table `parse_log_file` builds from an alert's lines has one row, the
      anomaly header, with the CPU, RAM and log count the detector logged and its process
      listing with the surrounding whitespace stripped. */
  lemma AlertRoundTrip(ts: string, m: Sampler.Metrics)
    requires TimestampShape(ts)
    ensures var table := Parse(AlertLines(ts, m));
      && |table| == 1
      && table[0].header == Header(ts, WarningName, Marker) && IsMarked(table[0].header)
      && table[0].cpu == Some(m.cpu) && table[0].memory == Some(m.memory)
      && table[0].logCount == Some(m.logCount)
      && table[0].topProcesses == Some(Strip(Detector.ProcessListing(m.topCpu)))
  {
    GroupAlert(ts, m);
    ExtractAlert(Header(ts, WarningName, Marker), m);
    AlertHeader(ts);
  }

  // What `analyze_processes` counts in a logged alert.

  predicate NoBreak(s: string) {
    forall j | 0 <= j < |s| :: !IsLineBreak(s[j])
  }

  /** The word a text starts with ends at the first whitespace after it. */
  lemma WordEndOf(w: string, tail: string)
    requires forall j | 0 <= j < |w| :: !IsSpace(w[j])
    requires tail == [] || IsSpace(tail[0])
    ensures WordEnd(w + tail) == |w|
  {
    var s := w + tail;
    assert forall j | 0 <= j < |w| :: s[j] == w[j];
    assert |s| > |w| ==> s[|w|] == tail[0];
  }

  /** The first word of a text that starts with a word. */
  lemma FirstWordOf(w: string, tail: string)
    requires w != [] && forall j | 0 <= j < |w| :: !IsSpace(w[j])
    requires tail == [] || IsSpace(tail[0])
    ensures FirstWord(w + tail) == Some(w)
  {
    var z := w + tail;
    assert z[0] == w[0];
    assert LStrip(z) == z;
    WordEndOf(w, tail);
    assert z[..|w|] == w;
  }

  /** Whitespace before a text that neither starts nor ends with whitespace does not
      change its token. */
  lemma TokenPadded(pad: string, z: string)
    requires AllSpace(pad) && z != [] && !IsSpace(z[0]) && !IsSpace(z[|z| - 1])
    ensures ProcessStats.Token(pad + z) == FirstWord(z)
  {
    StripPadded(pad, z, []);
    assert pad + z + [] == pad + z;
  }

  /** The token of a text that neither starts nor ends with whitespace is its first word. */
  lemma TokenBare(z: string)
    requires z != [] && !IsSpace(z[0]) && !IsSpace(z[|z| - 1])
    ensures ProcessStats.Token(z) == FirstWord(z)
  {
    assert RStrip(z) == z;
    assert LStrip(z) == z;
  }

  /** The rank as a process line writes it: `str(rank) + "."`. */
  function RankWord(rank: nat): string {
    NatText(rank) + "."
  }

  /** A process line after its rank. */
  function AfterRank(rank: nat, p: ProcessRecord): string {
    " " + p.name + " (" + TenthsText(p.cpu) + "% CPU, " + TenthsText(p.memory) + "% RAM)"
  }

  /** A process line without its two leading spaces. */
  function Ranked(rank: nat, p: ProcessRecord): string {
    RankWord(rank) + AfterRank(rank, p)
  }

  lemma ProcessLineParts(rank: nat, p: ProcessRecord)
    ensures Detector.ProcessLine(rank, p) == "  " + Ranked(rank, p)
    ensures RankWord(rank) != [] && forall j | 0 <= j < |RankWord(rank)| :: !IsSpace(RankWord(rank)[j])
    ensures AfterRank(rank, p)[0] == ' '
    ensures Ranked(rank, p) != [] && !IsSpace(Ranked(rank, p)[0])
    ensures Ranked(rank, p)[|Ranked(rank, p)| - 1] == ')'
  {
    assert forall j | 0 <= j < |NatText(rank)| :: RankWord(rank)[j] == NatText(rank)[j];
    assert Ranked(rank, p)[0] == RankWord(rank)[0];
  }

  /** The first word of a process line is its rank. */
  lemma RankedWord(rank: nat, p: ProcessRecord)
    ensures FirstWord(Ranked(rank, p)) == Some(RankWord(rank))
  {
    ProcessLineParts(rank, p);
    FirstWordOf(RankWord(rank), AfterRank(rank, p));
  }

  /** The token `analyze_processes` counts for a line that `format_processes` wrote is the
      rank with its dot, such as `1.`, and not the process name. */
  lemma RankToken(rank: nat, p: ProcessRecord)
    ensures ProcessStats.Token(Detector.ProcessLine(rank, p)) == Some(RankWord(rank))
  {
    ProcessLineParts(rank, p);
    TokenPadded("  ", Ranked(rank, p));
    RankedWord(rank, p);
  }

  /** The same for the first line of a stripped listing, which has lost its leading spaces. */
  lemma TrimmedRankToken(rank: nat, p: ProcessRecord)
    ensures |Detector.ProcessLine(rank, p)| >= 2
    ensures ProcessStats.Token(Detector.ProcessLine(rank, p)[2..]) == Some(RankWord(rank))
  {
    ProcessLineParts(rank, p);
    assert Detector.ProcessLine(rank, p)[2..] == Ranked(rank, p);
    TokenBare(Ranked(rank, p));
    RankedWord(rank, p);
  }

  lemma ProcessLineNoBreak(rank: nat, p: ProcessRecord)
    requires NoBreak(p.name)
    ensures NoBreak(Detector.ProcessLine(rank, p))
  {
    var line := Detector.ProcessLine(rank, p);
    TenthsTextShape(p.cpu);
    TenthsTextShape(p.memory);
    assert AllDigits(NatText(rank));
  }

  lemma {:induction false} JoinLast(parts: seq<string>, sep: string)
    requires parts != [] && parts[|parts| - 1] != []
    ensures var j := Join(parts, sep); var last := parts[|parts| - 1];
      |j| >= |last| && j[|j| - 1] == last[|last| - 1]
    decreases |parts|
  {
    if |parts| > 1 {
      JoinLast(parts[1..], sep);
      assert parts[1..][|parts[1..]| - 1] == parts[|parts| - 1];
    }
  }

  /** A line ends at the first line break. */
  lemma LineEndOf(line: string, tail: string)
    requires NoBreak(line) && (tail == [] || IsLineBreak(tail[0]))
    ensures LineEnd(line + tail) == |line|
  {
    var t := line + tail;
    assert forall j | 0 <= j < |line| :: t[j] == line[j];
    assert |t| > |line| ==> t[|line|] == tail[0];
  }

  /** `splitlines` takes off a first line ended by `"\n"`. */
  lemma FirstLineSplit(line: string, rest: string)
    requires line != [] && NoBreak(line)
    ensures SplitLines(line + "\n" + rest) == [line] + SplitLines(rest)
  {
    var t := line + "\n" + rest;
    assert t == line + ("\n" + rest);
    LineEndOf(line, "\n" + rest);
    assert t[|line|] == '\n';
    assert t[..|line|] == line;
    assert t[|line| + 1..] == rest;
  }

  /** Lines without line breaks, none of them empty, joined by newlines and split again. */
  lemma {:induction false} SplitLinesJoin(parts: seq<string>)
    requires parts != [] && forall k | 0 <= k < |parts| :: parts[k] != [] && NoBreak(parts[k])
    ensures SplitLines(Join(parts, "\n")) == parts
    decreases |parts|
  {
    if |parts| == 1 {
      LineEndOf(parts[0], []);
      assert parts[0] + [] == parts[0];
    } else {
      assert Join(parts, "\n") == parts[0] + "\n" + Join(parts[1..], "\n");
      FirstLineSplit(parts[0], Join(parts[1..], "\n"));
      SplitLinesJoin(parts[1..]);
      assert parts == [parts[0]] + parts[1..];
    }
  }

  predicate Readable(parts: seq<string>) {
    && parts != []
    && (forall k | 0 <= k < |parts| :: parts[k] != [] && NoBreak(parts[k]))
    && !IsSpace(parts[0][0])
    && !IsSpace(parts[|parts| - 1][|parts[|parts| - 1]| - 1])
  }

  lemma PaddedJoinReadBack(pad: string, parts: seq<string>)
    requires AllSpace(pad) && Readable(parts)
    ensures SplitLines(Strip(pad + Join(parts, "\n"))) == parts
  {
    var j := Join(parts, "\n");
    Detector.JoinStartsWith(parts, "\n");
    assert j[0] == parts[0][0];
    JoinLast(parts, "\n");
    StripPadded(pad, j, []);
    assert pad + j + [] == pad + j;
    SplitLinesJoin(parts);
  }

  /** A listing line: two spaces, then text that does not start with whitespace; no line
      breaks, and no whitespace at its end. */
  predicate PaddedLine(line: string) {
    |line| > 2 && line[0] == ' ' && line[1] == ' ' && !IsSpace(line[2])
    && NoBreak(line) && !IsSpace(line[|line| - 1])
  }

  /** What a process line is made of, as far as reading it back is concerned. */
  lemma ProcessLineFacts(rank: nat, p: ProcessRecord)
    requires NoBreak(p.name)
    ensures PaddedLine(Detector.ProcessLine(rank, p))
    ensures Detector.ProcessLine(rank, p)[2..] == RankWord(rank) + AfterRank(rank, p)
  {
    var line := Detector.ProcessLine(rank, p);
    ProcessLineParts(rank, p);
    ProcessLineNoBreak(rank, p);
    assert line[2..] == RankWord(rank) + AfterRank(rank, p);
    assert line[2] == RankWord(rank)[0];
  }

  /** The listing of a non-empty ranking, its first line without its leading spaces. */
  function Trimmed(lines: seq<string>): seq<string>
    requires lines != [] && |lines[0]| >= 2
  {
    [lines[0][2..]] + lines[1..]
  }

  /** The first listing line is two spaces and the rest. */
  lemma TrimmedFirstSplit(line: string)
    requires PaddedLine(line)
    ensures line == "  " + line[2..]
  {
    assert line[..2] == "  ";
    assert line == line[..2] + line[2..];
  }

  /** The first listing line without its leading spaces. */
  lemma TrimmedFirst(line: string)
    requires PaddedLine(line)
    ensures line[2..] != [] && NoBreak(line[2..]) && !IsSpace(line[2..][0])
    ensures !IsSpace(line[2..][|line[2..]| - 1])
  {
    var t := line[2..];
    assert forall j | 0 <= j < |t| :: t[j] == line[j + 2];
  }

  /** Joining listing lines is joining them without the first one's two spaces, after two
      spaces. */
  lemma TrimmedJoin(lines: seq<string>)
    requires lines != [] && PaddedLine(lines[0])
    ensures Join(lines, "\n") == "  " + Join(Trimmed(lines), "\n")
  {
    var parts := Trimmed(lines);
    TrimmedFirstSplit(lines[0]);
    assert lines == ["  " + parts[0]] + parts[1..];
    JoinPrefix("  ", parts, "\n");
  }

  lemma TrimmedReadable(lines: seq<string>)
    requires lines != [] && forall k | 0 <= k < |lines| :: PaddedLine(lines[k])
    ensures |lines[0]| > 2 && Readable(Trimmed(lines))
  {
    assert PaddedLine(lines[0]);
    var parts := Trimmed(lines);
    TrimmedFirst(lines[0]);
    assert forall k | 1 <= k < |parts| :: parts[k] == lines[k];
  }

  /** Listing lines joined by newlines, stripped and split again: the first line loses its
      leading spaces, and only it, since the others are not at the ends of the text. */
  lemma TrimmedReadBack(lines: seq<string>)
    requires lines != [] && forall k | 0 <= k < |lines| :: PaddedLine(lines[k])
    ensures |lines[0]| > 2
    ensures SplitLines(Strip(Join(lines, "\n"))) == Trimmed(lines)
  {
    TrimmedReadable(lines);
    TrimmedJoin(lines);
    PaddedJoinReadBack("  ", Trimmed(lines));
  }

  /** The lines `analyze_processes` reads from the stripped listing of a non-empty ranking. */
  lemma ListedReadBack(processes: seq<ProcessRecord>)
    requires forall i | 0 <= i < |processes| :: NoBreak(processes[i].name)
    requires Detector.ListingLines(processes) != []
    ensures |Detector.ListingLines(processes)[0]| >= 2
    ensures SplitLines(Strip(Join(Detector.ListingLines(processes), "\n"))) ==
      Trimmed(Detector.ListingLines(processes))
  {
    var lines := Detector.ListingLines(processes);
    var pos := Seqs.Positions(processes, Detector.Rendered);
    Detector.ListingExact(processes);
    forall k | 0 <= k < |lines|
      ensures PaddedLine(lines[k])
    {
      ProcessLineFacts(pos[k] + 1, processes[pos[k]]);
    }
    TrimmedReadBack(lines);
  }

  /** A single line without line breaks, padded with whitespace, stripped and split. */
  lemma OneLineReadBack(pad: string, text: string)
    requires text != [] && !IsSpace(text[0]) && !IsSpace(text[|text| - 1]) && NoBreak(text)
    requires AllSpace(pad)
    ensures SplitLines(Strip(pad + text)) == [text]
  {
    StripPadded(pad, text, []);
    assert pad + text + [] == pad + text;
    assert LineEnd(text) == |text|;
  }

  /** The lines `analyze_processes` reads from the placeholder `format_processes` writes
      for an empty ranking. */
  lemma PlaceholderReadBack()
    ensures SplitLines(Strip(Detector.NoRelevant)) == ["No relevant processes."]
  {
    PlaceholderParts();
    OneLineReadBack("  ", "No relevant processes.");
  }

  lemma PlaceholderParts()
    ensures Detector.NoRelevant == "  " + "No relevant processes."
  {
  }

  /** The lines `analyze_processes` takes from the row of a logged alert are the lines of
      its stripped listing. */
  lemma AlertListed(ts: string, m: Sampler.Metrics)
    requires TimestampShape(ts)
    ensures |Parse(AlertLines(ts, m))| == 1
    ensures ProcessStats.Listing(Parse(AlertLines(ts, m))[0]) ==
      SplitLines(Strip(Detector.ProcessListing(m.topCpu)))
  {
    AlertRoundTrip(ts, m);
  }

  /** Line `k` of `listed` has the token of rank `pos[k] + 1`. */
  predicate RankTokens(listed: seq<string>, pos: seq<nat>) {
    |listed| == |pos| && forall k | 0 <= k < |pos| :: ProcessStats.Token(listed[k]) == Some(RankWord(pos[k] + 1))
  }

  /** Trimming the first line leaves the tokens of the others alone. */
  lemma LaterLineToken(lines: seq<string>, k: nat, w: string)
    requires 0 < k < |lines| && |lines[0]| >= 2 && ProcessStats.Token(lines[k]) == Some(w)
    ensures ProcessStats.Token(Trimmed(lines)[k]) == Some(w)
  {
    Seqs.ReplaceHeadAt(lines, lines[0][2..], k);
  }

  /** The token of line `k` of a stripped listing whose line `k` is a process line. */
  lemma ListedLineToken(lines: seq<string>, k: nat, rank: nat, p: ProcessRecord)
    requires 0 <= k < |lines| && |lines[0]| >= 2 && lines[k] == Detector.ProcessLine(rank, p)
    ensures ProcessStats.Token(Trimmed(lines)[k]) == Some(RankWord(rank))
  {
    if k == 0 {
      TrimmedRankToken(rank, p);
    } else {
      RankToken(rank, p);
      LaterLineToken(lines, k, RankWord(rank));
    }
  }

  /** The tokens of a trimmed listing whose line `k` is the process line of rank
      `pos[k] + 1`. */
  lemma TrimmedTokens(lines: seq<string>, pos: seq<nat>, processes: seq<ProcessRecord>)
    requires lines != [] && |lines[0]| >= 2 && |lines| == |pos|
    requires forall k | 0 <= k < |pos| ::
      pos[k] < |processes| && lines[k] == Detector.ProcessLine(pos[k] + 1, processes[pos[k]])
    ensures RankTokens(Trimmed(lines), pos)
  {
    forall k | 0 <= k < |pos|
      ensures ProcessStats.Token(Trimmed(lines)[k]) == Some(RankWord(pos[k] + 1))
    {
      ListedLineToken(lines, k, pos[k] + 1, processes[pos[k]]);
    }
  }

  /** The tokens of the listing of a ranking with listed processes, its first line
      trimmed. */
  lemma ListedTokens(processes: seq<ProcessRecord>)
    requires Detector.ListingLines(processes) != [] && |Detector.ListingLines(processes)[0]| >= 2
    ensures RankTokens(Trimmed(Detector.ListingLines(processes)), Seqs.Positions(processes, Detector.Rendered))
  {
    var lines := Detector.ListingLines(processes);
    var pos := Seqs.Positions(processes, Detector.Rendered);
    Detector.ListingExact(processes);
    TrimmedTokens(lines, pos, processes);
  }

  /** The lines of the stripped listing of a ranking: the placeholder line when no process
      is listed, and otherwise one line per listed process whose token is its rank. */
  lemma ListingTokens(processes: seq<ProcessRecord>)
    requires forall i | 0 <= i < |processes| :: NoBreak(processes[i].name)
    ensures var listed := SplitLines(Strip(Detector.ProcessListing(processes)));
      var pos := Seqs.Positions(processes, Detector.Rendered);
      && (pos == [] ==> listed == ["No relevant processes."])
      && (pos != [] ==> RankTokens(listed, pos))
  {
    Detector.ListingExact(processes);
    if Detector.ListingLines(processes) == [] {
      PlaceholderReadBack();
    } else {
      assert Detector.ProcessListing(processes) == Join(Detector.ListingLines(processes), "\n");
      ListedReadBack(processes);
      ListedTokens(processes);
    }
  }

  /** The tokens `analyze_processes` counts for the row of a logged alert: line `k` of its
      listing yields the rank of the `k`-th listed process with its dot (`1.`, `3.`, ...),
      never the process name; a listing without processes is the one placeholder line.
      Process names are taken to be free of line breaks, as the record's lines are. */
  lemma AlertTokens(ts: string, m: Sampler.Metrics)
    requires TimestampShape(ts)
    requires forall i | 0 <= i < |m.topCpu| :: NoBreak(m.topCpu[i].name)
    ensures |Parse(AlertLines(ts, m))| == 1
    ensures var listed := ProcessStats.Listing(Parse(AlertLines(ts, m))[0]);
      var pos := Seqs.Positions(m.topCpu, Detector.Rendered);
      && (pos == [] ==> listed == ["No relevant processes."])
      && (pos != [] ==> RankTokens(listed, pos))
  {
    AlertListed(ts, m);
    ListingTokens(m.topCpu);
  }
}
