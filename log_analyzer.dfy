/** The anomaly-log analyzer, log_analyzer.py: `parse_log_file` groups the log's lines
    into plain entries and anomaly blocks and then extracts the metrics of each block;
    `analyze_processes` counts the first word of every top-process line of the anomaly
    rows and reports the five most frequent. The log file is given as the sequence of
    lines a text-mode read yields (each still carrying its newline). */
module LogAnalyzer {
  import opened Wrappers
  import opened Text
  import Seqs
  import Ranking

  /** The named groups of a header match. */
  datatype Header = Header(timestamp: string, level: string, message: string)

  /** A row of the parsed DataFrame. A plain entry has no `details`; an anomaly block
      has its detail lines and whatever metrics extraction found in them. */
  datatype Entry = Entry(
    header: Header, details: Option<seq<string>>,
    cpu: Option<nat>, memory: Option<nat>, logCount: Option<int>, topProcesses: Option<string>)

  const Marker: string := "ANOMALY:"
  const Separator: string := " - "

  /** `\d{4}-\d{2}-\d{2} \d{2}:\d{2}:\d{2},\d{3}`: `D` stands for a digit. */
  const TimestampMask: string := "DDDD-DD-DD DD:DD:DD,DDD"

  predicate TimestampShape(t: string) {
    |t| == |TimestampMask|
    && forall i | 0 <= i < |t| :: if TimestampMask[i] == 'D' then IsDigit(t[i]) else t[i] == TimestampMask[i]
  }

  predicate AllWordChars(s: string) {
    forall i | 0 <= i < |s| :: IsWordChar(s[i])
  }

  /** The length of the run of word characters that `s` starts with. */
  function WordRun(s: string): (i: nat)
    ensures i <= |s| && AllWordChars(s[..i]) && (i < |s| ==> !IsWordChar(s[i]))
    decreases |s|
  {
    if s == [] || !IsWordChar(s[0]) then 0
    else
      var r := 1 + WordRun(s[1..]);
      assert forall j | 1 <= j < r :: s[..r][j] == s[1..][..r - 1][j - 1];
      r
  }

  /** The text of `s` before its first newline (what `.*` matches). */
  function ToNewline(s: string): (r: string)
    ensures r <= s && '\n' !in r && (|r| < |s| ==> s[|r|] == '\n')
  {
    match Find(s, "\n")
    case Some(j) =>
      assert forall i | 0 <= i < j :: !StartsWith(s[i..], "\n") && s[i..][0] == s[i];
      s[..j]
    case None =>
      assert forall i | 0 <= i < |s| :: !StartsWith(s[i..], "\n") && s[i..][0] == s[i];
      s
  }

  /** `pattern.match(line)`: a timestamp, the separator, a (maximal, non-empty) run of word
      characters, the separator, and the message up to the first newline. */
  function MatchHeader(line: string): Option<Header> {
    if |line| < |TimestampMask| + 3 || !TimestampShape(line[..23]) || line[23..26] != Separator then None
    else
      var rest := line[26..];
      var w := WordRun(rest);
      if w == 0 || !StartsWith(rest[w..], Separator) then None
      else Some(Header(line[..23], rest[..w], ToNewline(rest[w + 3..])))
  }

  /** A successful match splits the line into the timestamp, the separator, the level, the
      separator and the message, which runs to the end of the line or to a newline. */
  lemma MatchHeaderSound(line: string)
    requires MatchHeader(line).Some?
    ensures var h := MatchHeader(line).value;
      var n := 29 + |h.level|;
      && TimestampShape(h.timestamp) && h.level != [] && AllWordChars(h.level) && '\n' !in h.message
      && n + |h.message| <= |line|
      && line[..23] == h.timestamp && line[23..26] == Separator && line[26..26 + |h.level|] == h.level
      && line[26 + |h.level|..n] == Separator && line[n..n + |h.message|] == h.message
      && (n + |h.message| == |line| || line[n + |h.message|] == '\n')
  {
    var rest := line[26..];
    var w := WordRun(rest);
    assert rest[w..][..3] == rest[w..w + 3];
    var msg := rest[w + 3..];
    var m := ToNewline(msg);
    assert line[26 + w..29 + w] == rest[w..w + 3];
    assert line[29 + w..29 + w + |m|] == msg[..|m|];
  }

  lemma WordRunOf(word: string, tail: string)
    requires AllWordChars(word) && tail != [] && !IsWordChar(tail[0])
    ensures WordRun(word + tail) == |word|
  {
    var s := word + tail;
    assert forall j | 0 <= j < |word| :: s[j] == word[j];
    assert s[|word|] == tail[0];
    var w := WordRun(s);
    assert forall j | 0 <= j < w :: s[..w][j] == s[j];
  }

  lemma ToNewlineOf(message: string, rest: string)
    requires '\n' !in message && (rest == [] || rest[0] == '\n')
    ensures ToNewline(message + rest) == message
  {
    var s := message + rest;
    assert forall j | 0 <= j < |message| :: s[j] == message[j];
    assert |message| < |s| ==> s[|message|] == '\n';
    var m := ToNewline(s);
    assert forall j | 0 <= j < |m| :: m[j] == s[j];
  }

  /** Where the parts of a header line sit in it. */
  lemma HeaderLineParts<T>(t: seq<T>, s1: seq<T>, level: seq<T>, s2: seq<T>, message: seq<T>, rest: seq<T>)
    requires |t| == 23 && |s1| == 3 && |s2| == 3
    ensures var line := t + s1 + level + s2 + message + rest;
      var after := level + (s2 + message + rest);
      && line[..23] == t && line[23..26] == s1 && line[26..] == after
      && after[..|level|] == level && after[|level|..] == s2 + message + rest
  {
    var line := t + s1 + level + s2 + message + rest;
    var after := level + (s2 + message + rest);
    assert line == (t + s1) + after;
  }

  lemma SeparatorThen<T>(s2: seq<T>, message: seq<T>, rest: seq<T>)
    requires |s2| == 3
    ensures (s2 + message + rest)[..3] == s2 && (s2 + message + rest)[3..] == message + rest
  {
  }

  /** Conversely, a line of that shape matches with exactly those groups. */
  lemma MatchHeaderComplete(t: string, level: string, message: string, rest: string)
    requires TimestampShape(t) && level != [] && AllWordChars(level) && '\n' !in message
    requires rest == [] || rest[0] == '\n'
    ensures MatchHeader(t + Separator + level + Separator + message + rest) == Some(Header(t, level, message))
  {
    var tail := Separator + message + rest;
    HeaderLineParts(t, Separator, level, Separator, message, rest);
    SeparatorThen(Separator, message, rest);
    WordRunOf(level, tail);
    ToNewlineOf(message, rest);
  }

  predicate IsMarked(h: Header) {
    Contains(h.message, Marker)
  }

  /** What a (stripped) line is to the grouping loop: the header of an anomaly block, a
      header line of any other record, or neither. */
  datatype Kind = Opening(header: Header) | Standalone(header: Header) | Continuation

  function Classify(line: string): Kind {
    match MatchHeader(line)
    case Some(h) => if IsMarked(h) then Opening(h) else Standalone(h)
    case None => Continuation
  }

  // The grouping below is stated for any classifier; the program's is `Classify`.
  type Classifier = string -> Kind

  function Plain(h: Header): Entry {
    Entry(h, None, None, None, None, None)
  }

  function Block(h: Header, details: seq<string>): Entry {
    Entry(h, Some(details), None, None, None, None)
  }

  /** The open anomaly block: `current_entry`. */
  datatype Open = Open(header: Header, details: seq<string>)

  /** The loop's state: the entries appended to `data` so far and the open block. */
  datatype Cursor = Cursor(data: seq<Entry>, current: Option<Open>)

  /** One iteration of the grouping loop, for a line of the given kind. */
  function Step(c: Cursor, line: string, kind: Kind): Cursor {
    match kind
    case Opening(h) => Cursor(Close(c), Some(Open(h, [])))
    case Standalone(h) =>
      if c.current.Some? then Cursor(c.data, Some(Open(c.current.value.header, c.current.value.details + [line])))
      else Cursor(c.data + [Plain(h)], None)
    case Continuation =>
      if c.current.Some? then Cursor(c.data, Some(Open(c.current.value.header, c.current.value.details + [line])))
      else c
  }

  /** The state after the loop has consumed `lines`. */
  function Scan(lines: seq<string>, classify: Classifier): Cursor
    decreases |lines|
  {
    if lines == [] then Cursor([], None)
    else Step(Scan(lines[..|lines| - 1], classify), lines[|lines| - 1], classify(lines[|lines| - 1]))
  }

  /** `data` once the open block, if any, is appended. */
  function Close(c: Cursor): seq<Entry> {
    c.data + match c.current case Some(o) => [Block(o.header, o.details)] case None => []
  }

  function GroupBy(lines: seq<string>, classify: Classifier): seq<Entry> {
    Close(Scan(lines, classify))
  }

  /** `line.rstrip()` for every line read. */
  function Stripped(raw: seq<string>): (r: seq<string>)
    ensures |r| == |raw| && forall i | 0 <= i < |raw| :: r[i] == RStrip(raw[i])
  {
    seq(|raw|, i requires 0 <= i < |raw| => RStrip(raw[i]))
  }

  /** The entries of `parse_log_file` before extraction. */
  function Group(raw: seq<string>): seq<Entry> {
    GroupBy(Stripped(raw), Classify)
  }

  /** One pass of the grouping loop's body over a stripped line. */
  method GroupStep(data: seq<Entry>, current: Option<Open>, line: string)
    returns (data': seq<Entry>, current': Option<Open>)
    ensures Cursor(data', current') == Step(Cursor(data, current), line, Classify(line))
  {
    data', current' := data, current;
    var m := MatchHeader(line);
    if m.Some? {
      var entry := m.value;
      if Contains(entry.message, Marker) {
        if current.Some? {
          data' := data + [Block(current.value.header, current.value.details)];
        }
        current' := Some(Open(entry, []));
      } else {
        if current.Some? {
          current' := Some(Open(current.value.header, current.value.details + [line]));
        } else {
          data' := data + [Plain(entry)];
        }
      }
    } else {
      if current.Some? {
        current' := Some(Open(current.value.header, current.value.details + [line]));
      }
    }
  }

  /** The grouping loop of `parse_log_file`. */
  method GroupLines(raw: seq<string>) returns (data: seq<Entry>)
    ensures data == Group(raw)
  {
    ghost var lines := Stripped(raw);
    data := [];
    var current: Option<Open> := None;
    for i := 0 to |raw|
      invariant Cursor(data, current) == Scan(lines[..i], Classify)
    {
      var line := RStrip(raw[i]);
      Seqs.TakeSnoc(lines, i);
      ScanSnoc(lines[..i], line, Classify);
      data, current := GroupStep(data, current, line);
    }
    assert lines[..|raw|] == lines;
    if current.Some? {
      data := data + [Block(current.value.header, current.value.details)];
    }
  }

  // An independent description of the grouping: the plain entries of the lines before the
  // first anomaly header, then one block per anomaly header holding the lines up to the next.

  /** The plain entries of header lines outside any anomaly block, in order. */
  function Plains(lines: seq<string>, classify: Classifier): (r: seq<Entry>)
    ensures forall i | 0 <= i < |r| :: r[i].details.None?
    decreases |lines|
  {
    if lines == [] then []
    else (match classify(lines[0]) case Standalone(h) => [Plain(h)] case _ => []) + Plains(lines[1..], classify)
  }

  lemma {:induction false} PlainsAppend(a: seq<string>, b: seq<string>, classify: Classifier)
    ensures Plains(a + b, classify) == Plains(a, classify) + Plains(b, classify)
    decreases |a|
  {
    if a == [] {
      assert a + b == b;
    } else {
      assert (a + b)[0] == a[0];
      assert (a + b)[1..] == a[1..] + b;
      PlainsAppend(a[1..], b, classify);
    }
  }

  /** The index of the first anomaly header, or `|lines|`. */
  function FirstOpening(lines: seq<string>, classify: Classifier): (k: nat)
    ensures k <= |lines| && (k < |lines| ==> classify(lines[k]).Opening?)
    ensures forall j | 0 <= j < k :: !classify(lines[j]).Opening?
    decreases |lines|
  {
    if lines == [] || classify(lines[0]).Opening? then 0 else 1 + FirstOpening(lines[1..], classify)
  }

  lemma {:induction false} FirstOpeningSnoc(lines: seq<string>, x: string, classify: Classifier)
    ensures FirstOpening(lines + [x], classify) ==
      if FirstOpening(lines, classify) < |lines| then FirstOpening(lines, classify)
      else if classify(x).Opening? then |lines| else |lines| + 1
    decreases |lines|
  {
    if lines == [] {
      assert lines + [x] == [x];
    } else {
      assert (lines + [x])[0] == lines[0];
      assert (lines + [x])[1..] == lines[1..] + [x];
      FirstOpeningSnoc(lines[1..], x, classify);
    }
  }

  function Blocks(lines: seq<string>, classify: Classifier): (r: seq<Entry>)
    requires lines == [] || classify(lines[0]).Opening?
    ensures forall i | 0 <= i < |r| :: r[i].details.Some?
    ensures (lines == []) == (r == [])
    decreases |lines|
  {
    if lines == [] then []
    else
      var next := 1 + FirstOpening(lines[1..], classify);
      assert next < |lines| ==> lines[next] == lines[1..][next - 1];
      [Block(classify(lines[0]).header, lines[1..next])] + Blocks(lines[next..], classify)
  }

  /** `Blocks` unfolded once, at the given end of the first block. */
  lemma BlocksUnfoldAt(lines: seq<string>, classify: Classifier, next: nat)
    requires lines != [] && classify(lines[0]).Opening?
    requires next == 1 + FirstOpening(lines[1..], classify)
    ensures next <= |lines|
    ensures Blocks(lines, classify) == [Block(classify(lines[0]).header, lines[1..next])] + Blocks(lines[next..], classify)
  {
  }

  lemma BlocksUnfold(lines: seq<string>, classify: Classifier)
    requires lines != [] && classify(lines[0]).Opening?
    ensures var next := 1 + FirstOpening(lines[1..], classify);
      && next <= |lines| && (next < |lines| ==> classify(lines[next..][0]).Opening?)
      && Blocks(lines, classify) == [Block(classify(lines[0]).header, lines[1..next])] + Blocks(lines[next..], classify)
  {
    var next := 1 + FirstOpening(lines[1..], classify);
    BlocksUnfoldAt(lines, classify, next);
    assert next < |lines| ==> lines[next..][0] == lines[1..][next - 1];
  }

  /** A single block: an anomaly header with no other anomaly header after it. */
  lemma BlocksSingle(b: seq<string>, classify: Classifier)
    requires b != [] && classify(b[0]).Opening?
    requires FirstOpening(b[1..], classify) == |b| - 1
    ensures Blocks(b, classify) == [Block(classify(b[0]).header, b[1..])]
  {
    var next := 1 + FirstOpening(b[1..], classify);
    BlocksUnfold(b, classify);
    var rest := b[next..];
    assert rest == [];
    assert Blocks(rest, classify) == [];
    assert b[1..next] == b[1..];
  }

  function Reference(lines: seq<string>, classify: Classifier): seq<Entry> {
    var k := FirstOpening(lines, classify);
    assert k < |lines| ==> lines[k..][0] == lines[k];
    Plains(lines[..k], classify) + Blocks(lines[k..], classify)
  }

  /** The last entry with one more detail line. */
  function ExtendLast(s: seq<Entry>, line: string): seq<Entry>
    requires s != [] && s[|s| - 1].details.Some?
  {
    var e := s[|s| - 1];
    s[..|s| - 1] + [e.(details := Some(e.details.value + [line]))]
  }

  lemma ExtendLastAppend(a: seq<Entry>, b: seq<Entry>, line: string)
    requires b != [] && b[|b| - 1].details.Some?
    ensures ExtendLast(a + b, line) == a + ExtendLast(b, line)
  {
    assert (a + b)[..|a + b| - 1] == a + b[..|b| - 1];
  }

  /** The facts about `b + [x]` that the block lemmas share. */
  lemma SnocFacts(b: seq<string>, x: string, classify: Classifier)
    requires b != []
    ensures (b + [x])[0] == b[0] && (b + [x])[1..] == b[1..] + [x]
    ensures FirstOpening((b + [x])[1..], classify) ==
      if FirstOpening(b[1..], classify) < |b| - 1 then FirstOpening(b[1..], classify)
      else if classify(x).Opening? then |b| - 1 else |b|
  {
    Seqs.DropSnoc(b, x, 1);
    FirstOpeningSnoc(b[1..], x, classify);
  }

  lemma BlocksSnocOpeningLast(b: seq<string>, x: string, classify: Classifier)
    requires b != [] && classify(b[0]).Opening?
    requires classify(x).Opening?
    requires FirstOpening(b[1..], classify) == |b| - 1
    ensures Blocks(b + [x], classify) == Blocks(b, classify) + [Block(classify(x).header, [])]
  {
    var bx := b + [x];
    SnocFacts(b, x, classify);
    BlocksUnfold(bx, classify);
    BlocksSingle(b, classify);
    Seqs.SliceSnoc(b, x, 1, |b|);
    Seqs.DropSnoc(b, x, |b|);
    assert b[|b|..] == [];
    assert [x][1..] == [];
    BlocksSingle([x], classify);
  }

  /** Appending a line after the first block leaves that block alone. */
  lemma FirstBlockSnoc(b: seq<string>, x: string, classify: Classifier, next: nat)
    requires b != [] && classify(b[0]).Opening?
    requires next == 1 + FirstOpening(b[1..], classify) && next < |b|
    ensures Blocks(b, classify) == [Block(classify(b[0]).header, b[1..next])] + Blocks(b[next..], classify)
    ensures Blocks(b + [x], classify) == [Block(classify(b[0]).header, b[1..next])] + Blocks(b[next..] + [x], classify)
  {
    var bx := b + [x];
    SnocFacts(b, x, classify);
    BlocksUnfoldAt(b, classify, next);
    Seqs.SliceSnoc(b, x, 1, next);
    Seqs.DropSnoc(b, x, next);
    BlocksUnfoldAt(bx, classify, next);
  }

  /** The step of `BlocksSnocOpening` past the first block, given the fact for the rest. */
  lemma BlocksSnocOpeningStep(b: seq<string>, x: string, classify: Classifier, next: nat)
    requires b != [] && classify(b[0]).Opening? && classify(x).Opening?
    requires next == 1 + FirstOpening(b[1..], classify) && next < |b|
    requires classify(b[next..][0]).Opening?
    requires Blocks(b[next..] + [x], classify) == Blocks(b[next..], classify) + [Block(classify(x).header, [])]
    ensures Blocks(b + [x], classify) == Blocks(b, classify) + [Block(classify(x).header, [])]
  {
    FirstBlockSnoc(b, x, classify, next);
    var first := Block(classify(b[0]).header, b[1..next]);
    var rest := Blocks(b[next..], classify);
    var last := Block(classify(x).header, []);
    assert Blocks(b + [x], classify) == [first] + (rest + [last]);
    assert Blocks(b, classify) == [first] + rest;
    Seqs.AppendAssoc([first], rest, [last]);
  }

  /** Reading one more anomaly header adds one empty block at the end. */
  lemma {:induction false} BlocksSnocOpening(b: seq<string>, x: string, classify: Classifier)
    requires b == [] || classify(b[0]).Opening?
    requires classify(x).Opening?
    ensures Blocks(b + [x], classify) == Blocks(b, classify) + [Block(classify(x).header, [])]
    decreases |b|
  {
    if b == [] {
      assert b + [x] == [x];
      assert [x][1..] == [];
      BlocksSingle([x], classify);
    } else {
      var next := 1 + FirstOpening(b[1..], classify);
      if next == |b| {
        BlocksSnocOpeningLast(b, x, classify);
      } else {
        BlocksUnfold(b, classify);
        BlocksSnocOpening(b[next..], x, classify);
        BlocksSnocOpeningStep(b, x, classify, next);
      }
    }
  }

  lemma BlocksSnocDetailLast(b: seq<string>, x: string, classify: Classifier)
    requires b != [] && classify(b[0]).Opening?
    requires !classify(x).Opening?
    requires FirstOpening(b[1..], classify) == |b| - 1
    ensures Blocks(b + [x], classify) == ExtendLast(Blocks(b, classify), x)
  {
    SnocFacts(b, x, classify);
    BlocksSingle(b, classify);
    BlocksSingle(b + [x], classify);
  }

  /** The step of `BlocksSnocDetail` past the first block, given the fact for the rest. */
  lemma BlocksSnocDetailStep(b: seq<string>, x: string, classify: Classifier, next: nat)
    requires b != [] && classify(b[0]).Opening? && !classify(x).Opening?
    requires next == 1 + FirstOpening(b[1..], classify) && next < |b|
    requires classify(b[next..][0]).Opening?
    requires Blocks(b[next..] + [x], classify) == ExtendLast(Blocks(b[next..], classify), x)
    ensures Blocks(b + [x], classify) == ExtendLast(Blocks(b, classify), x)
  {
    FirstBlockSnoc(b, x, classify, next);
    ExtendLastAppend([Block(classify(b[0]).header, b[1..next])], Blocks(b[next..], classify), x);
  }

  /** Reading any other line while a block is open adds it to the last block's details. */
  lemma {:induction false} BlocksSnocDetail(b: seq<string>, x: string, classify: Classifier)
    requires b != [] && classify(b[0]).Opening?
    requires !classify(x).Opening?
    ensures Blocks(b + [x], classify) == ExtendLast(Blocks(b, classify), x)
    decreases |b|
  {
    var next := 1 + FirstOpening(b[1..], classify);
    if next == |b| {
      BlocksSnocDetailLast(b, x, classify);
    } else {
      BlocksUnfold(b, classify);
      BlocksSnocDetail(b[next..], x, classify);
      BlocksSnocDetailStep(b, x, classify, next);
    }
  }

  lemma ScanSnoc(init: seq<string>, x: string, classify: Classifier)
    ensures Scan(init + [x], classify) == Step(Scan(init, classify), x, classify(x))
  {
    assert (init + [x])[..|init|] == init;
  }

  /** What the loop and the reference agree on after `init`. */
  ghost predicate Agree(init: seq<string>, classify: Classifier) {
    && GroupBy(init, classify) == Reference(init, classify)
    && (Scan(init, classify).current.Some? <==> FirstOpening(init, classify) < |init|)
  }

  lemma GroupSnocOpening(init: seq<string>, x: string, classify: Classifier)
    requires Agree(init, classify) && classify(x).Opening?
    ensures Agree(init + [x], classify)
  {
    var lines := init + [x];
    ScanSnoc(init, x, classify);
    FirstOpeningSnoc(init, x, classify);
    var k := FirstOpening(init, classify);
    var last := Block(classify(x).header, []);
    assert GroupBy(lines, classify) == Reference(init, classify) + [last];
    if k < |init| {
      Seqs.SliceSnoc(init, x, 0, k);
      Seqs.DropSnoc(init, x, k);
      assert init[k..][0] == init[k];
      BlocksSnocOpening(init[k..], x, classify);
      Seqs.AppendAssoc(Plains(init[..k], classify), Blocks(init[k..], classify), [last]);
    } else {
      assert lines[..k] == init;
      assert lines[k..] == [x];
      assert init[..k] == init && init[k..] == [];
      assert Reference(init, classify) == Plains(init, classify);
      assert [x][1..] == [];
      BlocksSingle([x], classify);
      assert Reference(lines, classify) == Plains(init, classify) + [last];
    }
  }

  lemma GroupSnocDetail(init: seq<string>, x: string, classify: Classifier)
    requires Agree(init, classify) && !classify(x).Opening?
    requires FirstOpening(init, classify) < |init|
    ensures Agree(init + [x], classify)
  {
    var lines := init + [x];
    ScanSnoc(init, x, classify);
    FirstOpeningSnoc(init, x, classify);
    var k := FirstOpening(init, classify);
    var c := Scan(init, classify);
    var o := c.current.value;
    assert GroupBy(lines, classify) == c.data + [Block(o.header, o.details + [x])];
    Seqs.SliceSnoc(init, x, 0, k);
    Seqs.DropSnoc(init, x, k);
    assert init[k..][0] == init[k];
    BlocksSnocDetail(init[k..], x, classify);
    ExtendLastAppend(Plains(init[..k], classify), Blocks(init[k..], classify), x);
    assert Reference(init, classify) == c.data + [Block(o.header, o.details)];
    assert (c.data + [Block(o.header, o.details)])[..|c.data|] == c.data;
  }

  /** Before any anomaly header, the reference is the plain entries alone. */
  lemma ReferenceWithoutOpening(lines: seq<string>, classify: Classifier)
    requires FirstOpening(lines, classify) == |lines|
    ensures Reference(lines, classify) == Plains(lines, classify)
  {
    assert lines[..|lines|] == lines && lines[|lines|..] == [];
    assert Blocks(lines[|lines|..], classify) == [];
    assert Plains(lines, classify) + [] == Plains(lines, classify);
  }

  lemma GroupSnocOutside(init: seq<string>, x: string, classify: Classifier)
    requires Agree(init, classify) && !classify(x).Opening?
    requires FirstOpening(init, classify) == |init|
    ensures Agree(init + [x], classify)
  {
    var lines := init + [x];
    ScanSnoc(init, x, classify);
    FirstOpeningSnoc(init, x, classify);
    var c := Scan(init, classify);
    assert c.current.None?;
    assert c.data + [] == c.data;
    ReferenceWithoutOpening(init, classify);
    ReferenceWithoutOpening(lines, classify);
    PlainsAppend(init, [x], classify);
    assert [x][1..] == [];
    match classify(x)
    case Standalone(h) =>
      assert Plains([x], classify) == [Plain(h)];
    case Continuation =>
      assert Plains([x], classify) == [];
  }

  /** The loop groups exactly as the reference says, and a block is open exactly when an
      anomaly header has been read. */
  lemma {:induction false} GroupIsReference(lines: seq<string>, classify: Classifier)
    ensures GroupBy(lines, classify) == Reference(lines, classify)
    ensures Scan(lines, classify).current.Some? <==> FirstOpening(lines, classify) < |lines|
    decreases |lines|
  {
    if lines != [] {
      var init := lines[..|lines| - 1];
      var x := lines[|lines| - 1];
      assert lines == init + [x];
      GroupIsReference(init, classify);
      if classify(x).Opening? {
        GroupSnocOpening(init, x, classify);
      } else if FirstOpening(init, classify) < |init| {
        GroupSnocDetail(init, x, classify);
      } else {
        GroupSnocOutside(init, x, classify);
      }
    }
  }

  // What the grouping promises, derived from the reference description.

  /** The headers of the anomaly headers among `lines`, in order. */
  function OpeningHeaders(lines: seq<string>, classify: Classifier): seq<Header>
    decreases |lines|
  {
    if lines == [] then []
    else (match classify(lines[0]) case Opening(h) => [h] case _ => []) + OpeningHeaders(lines[1..], classify)
  }

  /** The lines among `lines` that are not anomaly headers, in order. */
  function NonOpening(lines: seq<string>, classify: Classifier): seq<string>
    decreases |lines|
  {
    if lines == [] then []
    else (match classify(lines[0]) case Opening(_) => [] case _ => [lines[0]]) + NonOpening(lines[1..], classify)
  }

  /** The headers of the anomaly blocks among `entries`, in order. */
  function BlockHeaders(entries: seq<Entry>): seq<Header>
    decreases |entries|
  {
    if entries == [] then []
    else (match entries[0].details case Some(_) => [entries[0].header] case None => []) + BlockHeaders(entries[1..])
  }

  /** The detail lines of all blocks, block after block. */
  function AllDetails(entries: seq<Entry>): seq<string>
    decreases |entries|
  {
    if entries == [] then []
    else (match entries[0].details case Some(d) => d case None => []) + AllDetails(entries[1..])
  }

  lemma {:induction false} OpeningHeadersAppend(a: seq<string>, b: seq<string>, classify: Classifier)
    ensures OpeningHeaders(a + b, classify) == OpeningHeaders(a, classify) + OpeningHeaders(b, classify)
    decreases |a|
  {
    if a == [] {
      assert a + b == b;
    } else {
      Seqs.TailAppend(a, b);
      OpeningHeadersAppend(a[1..], b, classify);
      Seqs.AppendAssoc(match classify(a[0]) case Opening(h) => [h] case _ => [],
                       OpeningHeaders(a[1..], classify), OpeningHeaders(b, classify));
    }
  }

  lemma {:induction false} NonOpeningAppend(a: seq<string>, b: seq<string>, classify: Classifier)
    ensures NonOpening(a + b, classify) == NonOpening(a, classify) + NonOpening(b, classify)
    decreases |a|
  {
    if a == [] {
      assert a + b == b;
    } else {
      Seqs.TailAppend(a, b);
      NonOpeningAppend(a[1..], b, classify);
      Seqs.AppendAssoc(match classify(a[0]) case Opening(_) => [] case _ => [a[0]],
                       NonOpening(a[1..], classify), NonOpening(b, classify));
    }
  }

  lemma {:induction false} NoOpenings(lines: seq<string>, classify: Classifier)
    requires forall j | 0 <= j < |lines| :: !classify(lines[j]).Opening?
    ensures OpeningHeaders(lines, classify) == [] && NonOpening(lines, classify) == lines
    decreases |lines|
  {
    if lines != [] {
      NoOpenings(lines[1..], classify);
      assert lines == [lines[0]] + lines[1..];
    }
  }

  lemma {:induction false} BlockHeadersAppend(a: seq<Entry>, b: seq<Entry>)
    ensures BlockHeaders(a + b) == BlockHeaders(a) + BlockHeaders(b)
    decreases |a|
  {
    if a == [] {
      assert a + b == b;
    } else {
      Seqs.TailAppend(a, b);
      BlockHeadersAppend(a[1..], b);
      Seqs.AppendAssoc(match a[0].details case Some(_) => [a[0].header] case None => [],
                       BlockHeaders(a[1..]), BlockHeaders(b));
    }
  }

  lemma {:induction false} AllDetailsAppend(a: seq<Entry>, b: seq<Entry>)
    ensures AllDetails(a + b) == AllDetails(a) + AllDetails(b)
    decreases |a|
  {
    if a == [] {
      assert a + b == b;
    } else {
      Seqs.TailAppend(a, b);
      AllDetailsAppend(a[1..], b);
      Seqs.AppendAssoc(match a[0].details case Some(d) => d case None => [],
                       AllDetails(a[1..]), AllDetails(b));
    }
  }

  lemma {:induction false} PlainsCarryNothing(entries: seq<Entry>)
    requires forall i | 0 <= i < |entries| :: entries[i].details.None?
    ensures BlockHeaders(entries) == [] && AllDetails(entries) == []
    decreases |entries|
  {
    if entries != [] {
      PlainsCarryNothing(entries[1..]);
    }
  }

  /** The lines before the first anomaly header are all kept as they are. */
  lemma NoOpeningBefore(lines: seq<string>, classify: Classifier)
    ensures var k := FirstOpening(lines, classify);
      OpeningHeaders(lines[..k], classify) == [] && NonOpening(lines[..k], classify) == lines[..k]
  {
    var k := FirstOpening(lines, classify);
    var before := lines[..k];
    forall j | 0 <= j < |before|
      ensures !classify(before[j]).Opening?
    {
      assert before[j] == lines[j];
    }
    NoOpenings(before, classify);
  }

  /** The headers in a run of blocks: the first one, then those from the next block on. */
  lemma FirstBlockHeaders(b: seq<string>, classify: Classifier, next: nat)
    requires b != [] && classify(b[0]).Opening?
    requires next == 1 + FirstOpening(b[1..], classify)
    ensures next <= |b|
    ensures OpeningHeaders(b, classify) == [classify(b[0]).header] + OpeningHeaders(b[next..], classify)
  {
    var tail := b[1..];
    var k := next - 1;
    NoOpeningBefore(tail, classify);
    Seqs.TailSplit(b, next);
    OpeningHeadersAppend(tail[..k], b[next..], classify);
    assert OpeningHeaders(tail, classify) == OpeningHeaders(b[next..], classify);
  }

  /** The other lines in a run of blocks: those of the first block, then those from the
      next block on. */
  lemma FirstBlockDetails(b: seq<string>, classify: Classifier, next: nat)
    requires b != [] && classify(b[0]).Opening?
    requires next == 1 + FirstOpening(b[1..], classify)
    ensures next <= |b|
    ensures NonOpening(b, classify) == b[1..next] + NonOpening(b[next..], classify)
  {
    var tail := b[1..];
    var k := next - 1;
    NoOpeningBefore(tail, classify);
    Seqs.TailSplit(b, next);
    NonOpeningAppend(tail[..k], b[next..], classify);
    assert NonOpening(tail, classify) == b[1..next] + NonOpening(b[next..], classify);
  }

  /** The entries of a run of blocks: the first block, then the blocks from `next` on. */
  lemma FirstBlockEntries(b: seq<string>, classify: Classifier, next: nat)
    requires b != [] && classify(b[0]).Opening?
    requires next == 1 + FirstOpening(b[1..], classify)
    ensures next <= |b|
    ensures BlockHeaders(Blocks(b, classify)) == [classify(b[0]).header] + BlockHeaders(Blocks(b[next..], classify))
    ensures AllDetails(Blocks(b, classify)) == b[1..next] + AllDetails(Blocks(b[next..], classify))
  {
    BlocksUnfoldAt(b, classify, next);
    var first := Block(classify(b[0]).header, b[1..next]);
    var rest := Blocks(b[next..], classify);
    BlockHeadersAppend([first], rest);
    AllDetailsAppend([first], rest);
    assert BlockHeaders([first]) == [first.header];
    assert AllDetails([first]) == b[1..next];
  }

  lemma {:induction false} BlocksTrace(b: seq<string>, classify: Classifier)
    requires b == [] || classify(b[0]).Opening?
    ensures BlockHeaders(Blocks(b, classify)) == OpeningHeaders(b, classify)
    ensures AllDetails(Blocks(b, classify)) == NonOpening(b, classify)
    decreases |b|
  {
    if b != [] {
      var next := 1 + FirstOpening(b[1..], classify);
      FirstBlockHeaders(b, classify, next);
      FirstBlockDetails(b, classify, next);
      FirstBlockEntries(b, classify, next);
      assert next < |b| ==> b[next..][0] == b[1..][next - 1];
      BlocksTrace(b[next..], classify);
    }
  }

  lemma ReferenceHeaders(lines: seq<string>, classify: Classifier)
    ensures BlockHeaders(Reference(lines, classify)) == OpeningHeaders(lines, classify)
  {
    var k := FirstOpening(lines, classify);
    assert k < |lines| ==> lines[k..][0] == lines[k];
    var plains := Plains(lines[..k], classify);
    var blocks := Blocks(lines[k..], classify);
    BlocksTrace(lines[k..], classify);
    PlainsCarryNothing(plains);
    BlockHeadersAppend(plains, blocks);
    Seqs.SplitAt(lines, k);
    OpeningHeadersAppend(lines[..k], lines[k..], classify);
    NoOpenings(lines[..k], classify);
  }

  lemma ReferenceDetails(lines: seq<string>, classify: Classifier)
    ensures var k := FirstOpening(lines, classify);
      AllDetails(Reference(lines, classify)) == NonOpening(lines[k..], classify)
  {
    var k := FirstOpening(lines, classify);
    assert k < |lines| ==> lines[k..][0] == lines[k];
    var plains := Plains(lines[..k], classify);
    var blocks := Blocks(lines[k..], classify);
    BlocksTrace(lines[k..], classify);
    PlainsCarryNothing(plains);
    AllDetailsAppend(plains, blocks);
  }

  lemma ReferenceShape(lines: seq<string>, classify: Classifier)
    ensures var k := FirstOpening(lines, classify);
      var plains := Plains(lines[..k], classify);
      var g := Reference(lines, classify);
      && |plains| <= |g| && g[..|plains|] == plains
      && (forall i | 0 <= i < |g| :: g[i].details.None? <==> i < |plains|)
  {
    var k := FirstOpening(lines, classify);
    assert k < |lines| ==> lines[k..][0] == lines[k];
    var plains := Plains(lines[..k], classify);
    var blocks := Blocks(lines[k..], classify);
    var g := plains + blocks;
    assert g[..|plains|] == plains;
    forall i | 0 <= i < |g|
      ensures g[i].details.None? <==> i < |plains|
    {
      if i >= |plains| {
        assert g[i] == blocks[i - |plains|];
      }
    }
  }

  /** One anomaly entry per anomaly header line, in file order, carrying that line's
      header; and every line after the first anomaly header that is not itself one lands in
      exactly one block's details, in file order. Plain entries carry no details and come
      first. */
  lemma GroupTrace(lines: seq<string>, classify: Classifier)
    ensures BlockHeaders(GroupBy(lines, classify)) == OpeningHeaders(lines, classify)
    ensures var k := FirstOpening(lines, classify);
      AllDetails(GroupBy(lines, classify)) == NonOpening(lines[k..], classify)
    ensures var k := FirstOpening(lines, classify);
      var plains := Plains(lines[..k], classify);
      var g := GroupBy(lines, classify);
      && |plains| <= |g| && g[..|plains|] == plains
      && (forall i | 0 <= i < |g| :: g[i].details.None? <==> i < |plains|)
  {
    GroupIsReference(lines, classify);
    ReferenceHeaders(lines, classify);
    ReferenceDetails(lines, classify);
    ReferenceShape(lines, classify);
  }

  // Extracting the metrics from an anomaly block's detail lines.

  const CpuKey: string := "CPU:"
  const RamKey: string := "RAM:"
  const LogCountKey: string := "Log Count:"
  const TopKey: string := "Top Processes:"

  /** `float(detail.split(key)[1].strip().replace('%', ''))` for a detail line starting
      with `key`, in tenths of a percent, or None when `float` raises. */
  function PercentField(detail: string, key: string): Option<nat> {
    if StartsWith(detail, key) then ParseTenths(Strip(Remove(Strip(FieldText(detail, key)), '%')))
    else None
  }

  function CpuField(detail: string): Option<nat> { PercentField(detail, CpuKey) }

  function RamField(detail: string): Option<nat> { PercentField(detail, RamKey) }

  /** `int(detail.split("Log Count:")[1].strip())`, or None when `int` raises. */
  function CountField(detail: string): Option<int> {
    if StartsWith(detail, LogCountKey) then ParseInt(Strip(FieldText(detail, LogCountKey))) else None
  }

  predicate IsTopLine(detail: string) { StartsWith(detail, TopKey) }

  /** A field that a successful parse overwrites and a failed one leaves as it was. */
  function Latest<T>(found: Option<T>, prior: Option<T>): Option<T> {
    if found.Some? then found else prior
  }

  /** The process listing: the detail lines after the "Top Processes:" line at `t`, joined
      back with newlines and stripped. */
  function TopText(d: seq<string>, t: nat): string
    requires t < |d|
  {
    Strip(Join(d[t + 1..], "\n"))
  }

  /** The entry after the extraction pass: the metrics read from the detail lines before
      the first "Top Processes:" line, and the text of the lines after it. */
  function Extract(e: Entry): (r: Entry)
    ensures r.header == e.header && r.details == e.details
  {
    match e.details
    case None => e
    case Some(d) =>
      var t := Seqs.First(d, IsTopLine);
      e.(cpu := Latest(Seqs.LastBefore(d, t, CpuField), e.cpu),
         memory := Latest(Seqs.LastBefore(d, t, RamField), e.memory),
         logCount := Latest(Seqs.LastBefore(d, t, CountField), e.logCount),
         topProcesses := if t < |d| then Some(TopText(d, t)) else e.topProcesses)
  }

  /** Reading one more detail line into a field. */
  lemma LatestStep<U>(d: seq<string>, i: nat, f: string -> Option<U>, prior: Option<U>)
    requires i < |d|
    ensures Latest(Seqs.LastBefore(d, i + 1, f), prior) == Latest(f(d[i]), Latest(Seqs.LastBefore(d, i, f), prior))
  {
  }

  lemma KeyChar(detail: string, key: string)
    requires key != [] && StartsWith(detail, key)
    ensures detail[0] == key[0]
  {
    assert detail[..|key|][0] == key[0];
  }

  /** A detail line starts with at most one of the four keys (their first characters
      differ), so at most one field reads it. */
  lemma KeysExclusive(detail: string)
    ensures StartsWith(detail, CpuKey) ==> RamField(detail).None? && CountField(detail).None? && !IsTopLine(detail)
    ensures StartsWith(detail, RamKey) ==> CpuField(detail).None? && CountField(detail).None? && !IsTopLine(detail)
    ensures StartsWith(detail, LogCountKey) ==> CpuField(detail).None? && RamField(detail).None? && !IsTopLine(detail)
    ensures IsTopLine(detail) ==> CpuField(detail).None? && RamField(detail).None? && CountField(detail).None?
  {
    if StartsWith(detail, CpuKey) { KeyChar(detail, CpuKey); }
    if StartsWith(detail, RamKey) { KeyChar(detail, RamKey); }
    if StartsWith(detail, LogCountKey) { KeyChar(detail, LogCountKey); }
    if StartsWith(detail, TopKey) { KeyChar(detail, TopKey); }
  }

  /** The branches for one detail line: a metric line sets its field when its value parses,
      and `top` reports a "Top Processes:" line, which ends the pass. */
  method ReadDetail(r: Entry, detail: string) returns (r': Entry, top: bool)
    ensures top == IsTopLine(detail)
    ensures top ==> r' == r
    ensures r' == r.(cpu := Latest(CpuField(detail), r.cpu),
                     memory := Latest(RamField(detail), r.memory),
                     logCount := Latest(CountField(detail), r.logCount))
  {
    KeysExclusive(detail);
    r', top := r, false;
    if StartsWith(detail, CpuKey) {
      var v := ParseTenths(Strip(Remove(Strip(FieldText(detail, CpuKey)), '%')));
      if v.Some? {
        r' := r'.(cpu := v);
      }
    } else if StartsWith(detail, RamKey) {
      var v := ParseTenths(Strip(Remove(Strip(FieldText(detail, RamKey)), '%')));
      if v.Some? {
        r' := r'.(memory := v);
      }
    } else if StartsWith(detail, LogCountKey) {
      var v := ParseInt(Strip(FieldText(detail, LogCountKey)));
      if v.Some? {
        r' := r'.(logCount := v);
      }
    } else if StartsWith(detail, TopKey) {
      top := true;
    }
  }

  /** The fields read from the first `i` detail lines. */
  function ReadUpTo(e: Entry, d: seq<string>, i: nat): Entry
    requires i <= |d|
  {
    Entry(e.header, e.details,
      Latest(Seqs.LastBefore(d, i, CpuField), e.cpu),
      Latest(Seqs.LastBefore(d, i, RamField), e.memory),
      Latest(Seqs.LastBefore(d, i, CountField), e.logCount), e.topProcesses)
  }

  /** Reading one more detail line into the three fields. */
  lemma ReadUpToStep(e: Entry, d: seq<string>, i: nat)
    requires i < |d|
    ensures var r := ReadUpTo(e, d, i);
      ReadUpTo(e, d, i + 1) == r.(cpu := Latest(CpuField(d[i]), r.cpu),
                                  memory := Latest(RamField(d[i]), r.memory),
                                  logCount := Latest(CountField(d[i]), r.logCount))
  {
    LatestStep(d, i, CpuField, e.cpu);
    LatestStep(d, i, RamField, e.memory);
    LatestStep(d, i, CountField, e.logCount);
  }

  /** The pass stops at the first "Top Processes:" line, which `index` finds again. */
  lemma StopAtTop(e: Entry, i: nat)
    requires e.details.Some? && i < |e.details.value|
    requires IsTopLine(e.details.value[i]) && i <= Seqs.First(e.details.value, IsTopLine)
    ensures Seqs.IndexOf(e.details.value, e.details.value[i]) == i
    ensures ReadUpTo(e, e.details.value, i).(topProcesses := Some(TopText(e.details.value, i))) == Extract(e)
  {
    var d := e.details.value;
    assert Seqs.First(d, IsTopLine) == i;
  }

  /** The pass reads every line when none is a "Top Processes:" line. */
  lemma StopAtEnd(e: Entry)
    requires e.details.Some? && Seqs.First(e.details.value, IsTopLine) == |e.details.value|
    ensures ReadUpTo(e, e.details.value, |e.details.value|) == Extract(e)
  {
  }

  /** The extraction pass over one entry of `data`. */
  method ExtractMetrics(e: Entry) returns (r: Entry)
    ensures r == Extract(e)
  {
    r := e;
    if e.details.None? || e.details.value == [] {
      return;
    }
    var d := e.details.value;
    ghost var t := Seqs.First(d, IsTopLine);
    var i := 0;
    while i < |d|
      invariant i <= t <= |d|
      invariant r == ReadUpTo(e, d, i)
    {
      var detail := d[i];
      var top;
      r, top := ReadDetail(r, detail);
      if top {
        // `detail_lines.index(detail)` finds this very line: an equal earlier line would
        // have been a "Top Processes:" line too.
        StopAtTop(e, i);
        var idx := Seqs.IndexOf(d, detail);
        r := r.(topProcesses := Some(TopText(d, idx)));
        return;
      }
      ReadUpToStep(e, d, i);
      i := i + 1;
    }
    StopAtEnd(e);
  }

  /** `v` is what the pass leaves in a field that `f` reads from the first `t` detail
      lines: the value of the last of them that parses, or `prior` when none does. */
  ghost predicate ReadsLast<U>(d: seq<string>, t: nat, f: string -> Option<U>, v: Option<U>, prior: Option<U>)
    requires t <= |d|
  {
    if forall i | 0 <= i < t :: f(d[i]).None? then v == prior
    else exists i | 0 <= i < t :: f(d[i]).Some? && v == f(d[i]) && forall j | i < j < t :: f(d[j]).None?
  }

  lemma LatestReadsLast<U>(d: seq<string>, t: nat, f: string -> Option<U>, prior: Option<U>)
    requires t <= |d|
    ensures ReadsLast(d, t, f, Latest(Seqs.LastBefore(d, t, f), prior), prior)
  {
    Seqs.LastBeforeExact(d, t, f);
  }

  /** Extraction of a block whose first "Top Processes:" line is at `t`, or that has none. */
  lemma ExtractAt(e: Entry, t: nat)
    requires e.details.Some? && Seqs.First(e.details.value, IsTopLine) == t
    ensures var d := e.details.value;
      var r := Extract(e);
      && r.cpu == Latest(Seqs.LastBefore(d, t, CpuField), e.cpu)
      && r.memory == Latest(Seqs.LastBefore(d, t, RamField), e.memory)
      && r.logCount == Latest(Seqs.LastBefore(d, t, CountField), e.logCount)
  {
  }

  /** The listing extraction keeps for a block whose first "Top Processes:" line is at
      `t`, or that has none. */
  lemma ExtractTop(e: Entry, t: nat)
    requires e.details.Some? && Seqs.First(e.details.value, IsTopLine) == t
    ensures Extract(e).topProcesses ==
      if t < |e.details.value| then Some(TopText(e.details.value, t)) else e.topProcesses
  {
  }

  lemma ExtractReadsCpu(e: Entry, t: nat)
    requires e.details.Some? && Seqs.First(e.details.value, IsTopLine) == t
    ensures ReadsLast(e.details.value, t, CpuField, Extract(e).cpu, e.cpu)
  {
    LatestReadsLast(e.details.value, t, CpuField, e.cpu);
  }

  lemma ExtractReadsRam(e: Entry, t: nat)
    requires e.details.Some? && Seqs.First(e.details.value, IsTopLine) == t
    ensures ReadsLast(e.details.value, t, RamField, Extract(e).memory, e.memory)
  {
    LatestReadsLast(e.details.value, t, RamField, e.memory);
  }

  lemma ExtractReadsCount(e: Entry, t: nat)
    requires e.details.Some? && Seqs.First(e.details.value, IsTopLine) == t
    ensures ReadsLast(e.details.value, t, CountField, Extract(e).logCount, e.logCount)
  {
    LatestReadsLast(e.details.value, t, CountField, e.logCount);
  }

  /** What extraction leaves in a block whose first "Top Processes:" line is at `t` (or
      which has none, `t == |d|`; `Seqs.First` states that no line before `t` is one):
      each metric is the value of the last line before `t` that carries it and parses, or
      what the entry had; the listing is the stripped text of the lines after `t`. */
  lemma ExtractSpec(e: Entry, t: nat)
    requires e.details.Some? && Seqs.First(e.details.value, IsTopLine) == t
    ensures var d := e.details.value;
      var r := Extract(e);
      && r.header == e.header && r.details == e.details
      && ReadsLast(d, t, CpuField, r.cpu, e.cpu)
      && ReadsLast(d, t, RamField, r.memory, e.memory)
      && ReadsLast(d, t, CountField, r.logCount, e.logCount)
      && (t < |d| ==> r.topProcesses == Some(Strip(Join(d[t + 1..], "\n"))))
      && (t == |d| ==> r.topProcesses == e.topProcesses)
  {
    ExtractTop(e, t);
    ExtractReadsCpu(e, t);
    ExtractReadsRam(e, t);
    ExtractReadsCount(e, t);
  }

  /** Scanning stops at the "Top Processes:" line: lines appended after it, metric lines
      included, change no metric. */
  lemma ExtractStopsAtTop(e: Entry, tail: seq<string>)
    requires e.details.Some? && Seqs.First(e.details.value, IsTopLine) < |e.details.value|
    ensures var r := Extract(e.(details := Some(e.details.value + tail)));
      && r.cpu == Extract(e).cpu && r.memory == Extract(e).memory && r.logCount == Extract(e).logCount
  {
    var d := e.details.value;
    var t := Seqs.First(d, IsTopLine);
    Seqs.FirstAppend(d, tail, IsTopLine);
    Seqs.LastBeforePrefix(d, tail, t, CpuField);
    Seqs.LastBeforePrefix(d, tail, t, RamField);
    Seqs.LastBeforePrefix(d, tail, t, CountField);
  }

  // The whole of `parse_log_file`.

  /** The table `parse_log_file` builds from the lines of a readable file. */
  function Parse(raw: seq<string>): seq<Entry> {
    var g := Group(raw);
    seq(|g|, i requires 0 <= i < |g| => Extract(g[i]))
  }

  /** The log file: absent, unreadable (opening or reading it raises), or its lines. */
  datatype LogFile = Missing | Unreadable | Readable(lines: seq<string>)

  /** `parse_log_file`: None when the file is missing or raises while being read; otherwise
      the grouped entries, each then extracted in place. */
  method ParseLogFile(file: LogFile) returns (table: Option<seq<Entry>>)
    ensures table.Some? <==> file.Readable?
    ensures file.Readable? ==> table.value == Parse(file.lines)
  {
    match file {
      case Missing =>
        return None;
      case Unreadable =>
        return None;
      case Readable(raw) =>
        var data := GroupLines(raw);
        ghost var g := data;
        for k := 0 to |data|
          invariant |data| == |g|
          invariant forall j | 0 <= j < k :: data[j] == Extract(g[j])
          invariant forall j | k <= j < |g| :: data[j] == g[j]
        {
          var entry := ExtractMetrics(data[k]);
          data := data[k := entry];
        }
        return Some(data);
    }
  }

  // The anomaly rows: `df[df['message'].str.contains("ANOMALY:")]`.

  /** No metric has been read into the entry. */
  predicate Unread(e: Entry) {
    e.cpu.None? && e.memory.None? && e.logCount.None? && e.topProcesses.None?
  }

  /** A classifier that opens a block exactly at a marked header. */
  ghost predicate OpensAtMarks(classify: Classifier) {
    forall line :: (classify(line).Opening? ==> IsMarked(classify(line).header))
                && (classify(line).Standalone? ==> !IsMarked(classify(line).header))
  }

  lemma ClassifyOpensAtMarks()
    ensures OpensAtMarks(Classify)
  {
  }

  lemma {:induction false} PlainsUnmarked(lines: seq<string>, classify: Classifier)
    requires OpensAtMarks(classify)
    ensures forall i | 0 <= i < |Plains(lines, classify)| ::
      !IsMarked(Plains(lines, classify)[i].header) && Unread(Plains(lines, classify)[i])
    decreases |lines|
  {
    if lines != [] {
      PlainsUnmarked(lines[1..], classify);
      var head := match classify(lines[0]) case Standalone(h) => [Plain(h)] case _ => [];
      assert Plains(lines, classify) == head + Plains(lines[1..], classify);
    }
  }

  lemma {:induction false} BlocksMarked(b: seq<string>, classify: Classifier)
    requires OpensAtMarks(classify) && (b == [] || classify(b[0]).Opening?)
    ensures forall i | 0 <= i < |Blocks(b, classify)| ::
      IsMarked(Blocks(b, classify)[i].header) && Unread(Blocks(b, classify)[i])
    decreases |b|
  {
    if b != [] {
      var next := 1 + FirstOpening(b[1..], classify);
      BlocksUnfold(b, classify);
      BlocksMarked(b[next..], classify);
    }
  }

  /** Grouping leaves every metric unread, and an entry is an anomaly block exactly when
      its message carries the marker. */
  lemma GroupMarked(lines: seq<string>, classify: Classifier)
    requires OpensAtMarks(classify)
    ensures var g := GroupBy(lines, classify);
      forall i | 0 <= i < |g| :: (IsMarked(g[i].header) <==> g[i].details.Some?) && Unread(g[i])
  {
    GroupIsReference(lines, classify);
    var k := FirstOpening(lines, classify);
    assert k < |lines| ==> lines[k..][0] == lines[k];
    var plains := Plains(lines[..k], classify);
    var blocks := Blocks(lines[k..], classify);
    PlainsUnmarked(lines[..k], classify);
    BlocksMarked(lines[k..], classify);
    var g := plains + blocks;
    forall i | 0 <= i < |g|
      ensures (IsMarked(g[i].header) <==> g[i].details.Some?) && Unread(g[i])
    {
      if i >= |plains| {
        assert g[i] == blocks[i - |plains|];
      }
    }
  }

  function MarkedRow(e: Entry): Option<Entry> {
    if IsMarked(e.header) then Some(e) else None
  }

  /** The rows whose message contains the marker, in table order. */
  function AnomalyRows(table: seq<Entry>): seq<Entry> {
    Seqs.FilterMap(table, MarkedRow)
  }

  /** The number of plain entries: those read before the first anomaly header. */
  function PlainCount(raw: seq<string>): nat {
    var lines := Stripped(raw);
    |Plains(lines[..FirstOpening(lines, Classify)], Classify)|
  }

  /** The table: `PlainCount` plain entries, then anomaly blocks; a row is a block exactly
      when its message carries the marker, and only blocks carry a listing. */
  lemma ParseShape(raw: seq<string>)
    ensures PlainCount(raw) <= |Parse(raw)|
    ensures var table := Parse(raw);
      forall i | 0 <= i < |table| ::
        && (table[i].details.Some? <==> PlainCount(raw) <= i)
        && (IsMarked(table[i].header) <==> PlainCount(raw) <= i)
        && (table[i].topProcesses.Some? ==> PlainCount(raw) <= i)
  {
    var lines := Stripped(raw);
    var g := Group(raw);
    var table := Parse(raw);
    ClassifyOpensAtMarks();
    GroupMarked(lines, Classify);
    ReferenceShape(lines, Classify);
    GroupIsReference(lines, Classify);
    var p := PlainCount(raw);
    forall i | 0 <= i < |table|
      ensures && (table[i].details.Some? <==> p <= i)
              && (IsMarked(table[i].header) <==> p <= i)
              && (table[i].topProcesses.Some? ==> p <= i)
    {
      assert table[i] == Extract(g[i]);
    }
  }

  /** The row filter selects exactly the anomaly blocks: the table after its leading
      plain entries. */
  lemma AnomalyRowsAreBlocks(raw: seq<string>)
    ensures PlainCount(raw) <= |Parse(raw)| && AnomalyRows(Parse(raw)) == Parse(raw)[PlainCount(raw)..]
  {
    var table := Parse(raw);
    var p := PlainCount(raw);
    ParseShape(raw);
    Seqs.SplitAt(table, p);
    Seqs.FilterMapAppend(table[..p], table[p..], MarkedRow);
    Seqs.FilterMapNone(table[..p], MarkedRow);
    Seqs.FilterMapAll(table[p..], MarkedRow);
  }
}
