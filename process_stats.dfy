/** `analyze_processes` in log_analyzer.py: count the first token of every line of every
    anomaly row's process listing and report the five most frequent tokens. */
module ProcessStats {
  import opened Wrappers
  import opened Text
  import Seqs
  import Ranking
  import opened LogAnalyzer

  const ReportSize: nat := 5

  /** How `analyze_processes` ends. */
  datatype Outcome =
    | NoProcessData                    // "No process data found in anomalies."
    | IndexError                       // `split()[0]` of a blank listing line raises
    | Report(top: seq<(string, nat)>)  // the "(token): (count) times" lines, in order

  /** The lines of the rows' listings, row after row: `splitlines()` of every listing that
      is a string; a row without one contributes nothing. */
  function ListingLines(rows: seq<Entry>): seq<string>
    decreases |rows|
  {
    if rows == [] then []
    else ListingLines(rows[..|rows| - 1]) + Listing(rows[|rows| - 1])
  }

  function Listing(row: Entry): seq<string> {
    match row.topProcesses case Some(text) => SplitLines(text) case None => []
  }

  /** The token counted for one line: `line.strip().split()[0]`, None when that raises. */
  function Token(line: string): Option<string> {
    FirstWord(Strip(line))
  }

  /** The tokens `token` gives for `lines`, in order, or None when one of the lines has
      none. The counting proofs hold for any `token`; the model uses `Token`. */
  function Tokens(lines: seq<string>, token: string -> Option<string>): Option<seq<string>>
    decreases |lines|
  {
    if lines == [] then Some([])
    else
      match Tokens(lines[..|lines| - 1], token)
      case None => None
      case Some(w) =>
        match token(lines[|lines| - 1])
        case None => None
        case Some(x) => Some(w + [x])
  }

  function Count(p: (string, nat)): int { p.1 }

  /** `process_stats.items()`: each distinct token once, in the order first seen, with its
      number of occurrences. */
  function Tally(tokens: seq<string>): seq<(string, nat)> {
    var d := Seqs.Dedup(tokens);
    seq(|d|, i requires 0 <= i < |d| => (d[i], multiset(tokens)[d[i]]))
  }

  /** The table has a `top_processes` column: some row of it has a listing. */
  predicate HasListingColumn(table: seq<Entry>) {
    exists i | 0 <= i < |table| :: table[i].topProcesses.Some?
  }

  /** What `analyze_processes` does with the anomaly rows, given whether the table they
      were selected from has a `top_processes` column. */
  function Analysis(rows: seq<Entry>, hasColumn: bool): Outcome {
    if rows == [] || !hasColumn then NoProcessData
    else
      match Tokens(ListingLines(rows), Token)
      case None => IndexError
      case Some(tokens) => Report(Ranking.Top(Tally(tokens), Count, ReportSize))
  }

  // The counting loop.

  /** `stats` and its key order `order` (a Python dictionary keeps insertion order) hold
      the counts of `tokens`. */
  ghost predicate Counted(stats: map<string, nat>, order: seq<string>, tokens: seq<string>) {
    && order == Seqs.Dedup(tokens)
    && (forall t :: t in stats <==> t in tokens)
    && (forall t | t in stats :: stats[t] == multiset(tokens)[t])
  }

  /** `process_stats[t] = process_stats.get(t, 0) + 1`. */
  function Bump(stats: map<string, nat>, t: string): map<string, nat> {
    stats[t := (if t in stats then stats[t] else 0) + 1]
  }

  lemma CountedStep(stats: map<string, nat>, order: seq<string>, tokens: seq<string>, x: string)
    requires Counted(stats, order, tokens)
    ensures Counted(Bump(stats, x), if x in stats then order else order + [x], tokens + [x])
  {
    var w := tokens + [x];
    assert w[..|w| - 1] == tokens;
    assert multiset(w) == multiset(tokens) + multiset{x};
  }

  lemma CountedItems(stats: map<string, nat>, order: seq<string>, tokens: seq<string>)
    requires Counted(stats, order, tokens)
    ensures forall i | 0 <= i < |order| :: order[i] in stats
    ensures seq(|order|, i requires 0 <= i < |order| && order[i] in stats => (order[i], stats[order[i]])) == Tally(tokens)
  {
  }

  lemma TokensStep(lines: seq<string>, line: string, token: string -> Option<string>)
    ensures Tokens(lines + [line], token) ==
      match Tokens(lines, token)
      case None => None
      case Some(w) => match token(line) case None => None case Some(x) => Some(w + [x])
  {
    assert (lines + [line])[..|lines|] == lines;
  }

  /** A blank line stops the count for good. */
  lemma {:induction false} TokensFailed(a: seq<string>, b: seq<string>, token: string -> Option<string>)
    requires Tokens(a, token).None?
    ensures Tokens(a + b, token).None?
    decreases |b|
  {
    if b == [] {
      assert a + b == a;
    } else {
      var init, x := b[..|b| - 1], b[|b| - 1];
      TokensFailed(a, init, token);
      assert b == init + [x];
      Seqs.AppendAssoc(a, init, [x]);
      TokensStep(a + init, x, token);
    }
  }

  lemma {:induction false} ListingLinesAppend(a: seq<Entry>, b: seq<Entry>)
    ensures ListingLines(a + b) == ListingLines(a) + ListingLines(b)
    decreases |b|
  {
    if b == [] {
      assert a + b == a;
    } else {
      var init := b[..|b| - 1];
      ListingLinesAppend(a, init);
      Seqs.AppendAssoc(a, init, [b[|b| - 1]]);
      assert b == init + [b[|b| - 1]];
      assert (a + b)[..|a + b| - 1] == a + init;
      Seqs.AppendAssoc(ListingLines(a), ListingLines(init), Listing(b[|b| - 1]));
    }
  }

  lemma ListingLinesTake(rows: seq<Entry>, r: nat)
    requires r < |rows|
    ensures ListingLines(rows[..r + 1]) == ListingLines(rows[..r]) + Listing(rows[r])
  {
    assert rows[..r + 1][..r] == rows[..r];
  }

  /** A line without a token in row `r` makes the whole count fail. */
  lemma FailsInRow(rows: seq<Entry>, r: nat, token: string -> Option<string>)
    requires r < |rows|
    requires Tokens(ListingLines(rows[..r]) + Listing(rows[r]), token).None?
    ensures Tokens(ListingLines(rows), token).None?
  {
    ListingLinesTake(rows, r);
    Seqs.SplitAt(rows, r + 1);
    ListingLinesAppend(rows[..r + 1], rows[r + 1..]);
    TokensFailed(ListingLines(rows[..r + 1]), ListingLines(rows[r + 1..]), token);
  }

  /** The inner loop of `analyze_processes`: count the tokens of one listing's lines,
      stopping at the first line without one. `token` is the tokenizer (`Token`). */
  method CountLines(stats: map<string, nat>, order: seq<string>, lines: seq<string>,
                    token: string -> Option<string>, ghost seen: seq<string>, ghost tokens: seq<string>)
    returns (stats': map<string, nat>, order': seq<string>, failed: bool, ghost tokens': seq<string>)
    requires Tokens(seen, token) == Some(tokens) && Counted(stats, order, tokens)
    ensures failed <==> Tokens(seen + lines, token).None?
    ensures !failed ==> Tokens(seen + lines, token) == Some(tokens') && Counted(stats', order', tokens')
  {
    stats', order', failed, tokens' := stats, order, false, tokens;
    assert seen + lines[..0] == seen;
    for j := 0 to |lines|
      invariant Tokens(seen + lines[..j], token) == Some(tokens')
      invariant Counted(stats', order', tokens')
    {
      TokensStep(seen + lines[..j], lines[j], token);
      Seqs.TakeSnoc(lines, j);
      Seqs.AppendAssoc(seen, lines[..j], [lines[j]]);
      var name := token(lines[j]);
      if name.None? {
        Seqs.SplitAt(lines, j + 1);
        Seqs.AppendAssoc(seen, lines[..j + 1], lines[j + 1..]);
        TokensFailed(seen + lines[..j + 1], lines[j + 1..], token);
        return stats', order', true, tokens';
      }
      CountedStep(stats', order', tokens', name.value);
      if name.value !in stats' {
        order' := order' + [name.value];
      }
      stats' := Bump(stats', name.value);
      tokens' := tokens' + [name.value];
    }
    Seqs.TakeAll(lines);
  }

  /** `analyze_processes`. */
  method AnalyzeProcesses(rows: seq<Entry>, hasColumn: bool) returns (o: Outcome)
    ensures o == Analysis(rows, hasColumn)
  {
    if rows == [] || !hasColumn {
      return NoProcessData;
    }
    var stats: map<string, nat> := map[];
    var order: seq<string> := [];
    ghost var tokens: seq<string> := [];
    for r := 0 to |rows|
      invariant Tokens(ListingLines(rows[..r]), Token) == Some(tokens)
      invariant Counted(stats, order, tokens)
    {
      ListingLinesTake(rows, r);
      match rows[r].topProcesses {
        case None =>
          assert ListingLines(rows[..r]) + Listing(rows[r]) == ListingLines(rows[..r]);
        case Some(text) =>
          assert Listing(rows[r]) == SplitLines(text);
          var failed;
          stats, order, failed, tokens := CountLines(stats, order, SplitLines(text), Token, ListingLines(rows[..r]), tokens);
          if failed {
            FailsInRow(rows, r, Token);
            return IndexError;
          }
      }
    }
    Seqs.TakeAll(rows);
    CountedItems(stats, order, tokens);
    var items := seq(|order|, i requires 0 <= i < |order| && order[i] in stats => (order[i], stats[order[i]]));
    return Report(Ranking.Top(items, Count, ReportSize));
  }

  // What the report means.

  /** A string made of whitespace that does not end in whitespace is empty. */
  lemma SpacesOnlyStripped(r: string)
    requires AllSpace(r) && (r == [] || !IsSpace(r[|r| - 1]))
    ensures r == []
  {
  }

  /** A line yields no token exactly when it is blank: empty or whitespace only. */
  lemma TokenBlank(line: string)
    ensures Token(line).None? <==> AllSpace(line)
  {
    var r := RStrip(line);
    var t := LStrip(r);
    if AllSpace(t) {
      assert t == [];
      assert AllSpace(r);
      SpacesOnlyStripped(r);
    }
    if AllSpace(line) {
      assert AllSpace(r);
      SpacesOnlyStripped(r);
    }
  }

  /** The tokens are those of the lines, one per line, and there are some exactly when
      every line has one. */
  lemma {:induction false} TokensExact(lines: seq<string>, token: string -> Option<string>)
    ensures Tokens(lines, token).Some? <==> forall i | 0 <= i < |lines| :: token(lines[i]).Some?
    ensures Tokens(lines, token).Some? ==>
      |Tokens(lines, token).value| == |lines|
      && forall i | 0 <= i < |lines| :: token(lines[i]) == Some(Tokens(lines, token).value[i])
    decreases |lines|
  {
    if lines != [] {
      var init, x := lines[..|lines| - 1], lines[|lines| - 1];
      TokensExact(init, token);
      assert lines == init + [x];
      TokensStep(init, x, token);
      assert forall i | 0 <= i < |init| :: lines[i] == init[i];
    }
  }

  /** Each distinct token appears once, in the order first seen, with its number of
      occurrences. */
  lemma TallyExact(tokens: seq<string>)
    ensures forall a, b | 0 <= a < b < |Tally(tokens)| :: Tally(tokens)[a].0 != Tally(tokens)[b].0
    ensures forall i | 0 <= i < |Tally(tokens)| ::
      Tally(tokens)[i].0 in tokens && Tally(tokens)[i].1 == multiset(tokens)[Tally(tokens)[i].0] >= 1
    ensures forall t | t in tokens :: exists i | 0 <= i < |Tally(tokens)| :: Tally(tokens)[i].0 == t
    ensures forall a, b | 0 <= a < b < |Tally(tokens)| ::
      Seqs.IndexOf(tokens, Tally(tokens)[a].0) < Seqs.IndexOf(tokens, Tally(tokens)[b].0)
  {
    var d := Seqs.Dedup(tokens);
    Seqs.DedupDistinct(tokens);
    Seqs.DedupFirstSeen(tokens);
    forall t | t in tokens
      ensures exists i | 0 <= i < |Tally(tokens)| :: Tally(tokens)[i].0 == t
    {
      var i :| 0 <= i < |d| && d[i] == t;
      assert Tally(tokens)[i].0 == t;
    }
  }

  /** The sum of the counts. */
  function Total(pairs: seq<(string, nat)>): nat
    decreases |pairs|
  {
    if pairs == [] then 0 else Total(pairs[..|pairs| - 1]) + pairs[|pairs| - 1].1
  }

  /** The number of occurrences in `m` of the elements of `d`, added up. */
  function CountSum(d: seq<string>, m: multiset<string>): nat
    decreases |d|
  {
    if d == [] then 0 else CountSum(d[..|d| - 1], m) + m[d[|d| - 1]]
  }

  lemma {:induction false} TotalOfPairs(d: seq<string>, m: multiset<string>)
    ensures Total(seq(|d|, i requires 0 <= i < |d| => (d[i], m[d[i]]))) == CountSum(d, m)
    decreases |d|
  {
    if d != [] {
      var init := d[..|d| - 1];
      TotalOfPairs(init, m);
      var p := seq(|d|, i requires 0 <= i < |d| => (d[i], m[d[i]]));
      assert p[..|p| - 1] == seq(|init|, i requires 0 <= i < |init| => (init[i], m[init[i]]));
    }
  }

  lemma {:induction false} CountSumAbsent(d: seq<string>, m: multiset<string>, x: string)
    requires x !in d
    ensures CountSum(d, m + multiset{x}) == CountSum(d, m)
    decreases |d|
  {
    if d != [] {
      CountSumAbsent(d[..|d| - 1], m, x);
    }
  }

  lemma {:induction false} CountSumAdd(d: seq<string>, m: multiset<string>, x: string)
    requires Seqs.Distinct(d) && x in d
    ensures CountSum(d, m + multiset{x}) == CountSum(d, m) + 1
    decreases |d|
  {
    var init := d[..|d| - 1];
    if d[|d| - 1] == x {
      assert x !in init;
      CountSumAbsent(init, m, x);
    } else {
      assert x in init;
      CountSumAdd(init, m, x);
    }
  }

  lemma {:induction false} CountSumAll(w: seq<string>)
    ensures CountSum(Seqs.Dedup(w), multiset(w)) == |w|
    decreases |w|
  {
    if w != [] {
      var init, x := w[..|w| - 1], w[|w| - 1];
      assert w == init + [x];
      CountSumAll(init);
      assert multiset(w) == multiset(init) + multiset{x};
      var d := Seqs.Dedup(init);
      assert w[..|w| - 1] == init;
      if x in init {
        assert Seqs.Dedup(w) == d;
        Seqs.DedupDistinct(init);
        CountSumAdd(d, multiset(init), x);
      } else {
        CountSumAbsent(d, multiset(init), x);
        assert (d + [x])[..|d|] == d;
      }
    }
  }

  /** The counts add up to the number of tokens. */
  lemma TallyTotal(tokens: seq<string>)
    ensures Total(Tally(tokens)) == |tokens|
  {
    TotalOfPairs(Seqs.Dedup(tokens), multiset(tokens));
    CountSumAll(tokens);
  }

  /** The report ranks the tally: as many entries as the tally has, up to five, counts
      non-increasing, drawn from the tally, every token left out counted no more often than
      any reported token, and tokens with equal counts in the tally's first-seen order. */
  lemma ReportRanksTally(rows: seq<Entry>, hasColumn: bool)
    requires Analysis(rows, hasColumn).Report?
    ensures Tokens(ListingLines(rows), Token).Some?
    ensures
      var top := Analysis(rows, hasColumn).top;
      var tally := Tally(Tokens(ListingLines(rows), Token).value);
      && |top| == Ranking.Min(ReportSize, |tally|)
      && Ranking.NonIncreasing(top, Count)
      && multiset(top) <= multiset(tally)
      && (forall x | x in multiset(tally) - multiset(top) :: forall i | 0 <= i < |top| :: x.1 <= top[i].1)
      && (forall v :: Ranking.WithKey(top, Count, v) <= Ranking.WithKey(tally, Count, v))
  {
    var tally := Tally(Tokens(ListingLines(rows), Token).value);
    Ranking.TopRanks(tally, Count, ReportSize);
    assert Analysis(rows, hasColumn).top == Ranking.Top(tally, Count, ReportSize);
  }

  predicate HasBlankLine(lines: seq<string>) {
    exists i | 0 <= i < |lines| :: AllSpace(lines[i])
  }

  /** There is no process data exactly when there are no anomaly rows or no listing column;
      otherwise the count fails exactly when some listing line is blank. */
  lemma AnalysisCases(rows: seq<Entry>, hasColumn: bool)
    ensures Analysis(rows, hasColumn).NoProcessData? <==> rows == [] || !hasColumn
    ensures Analysis(rows, hasColumn).IndexError? <==> rows != [] && hasColumn && HasBlankLine(ListingLines(rows))
  {
    var lines := ListingLines(rows);
    TokensExact(lines, Token);
    forall i | 0 <= i < |lines|
      ensures Token(lines[i]).None? <==> AllSpace(lines[i])
    {
      TokenBlank(lines[i]);
    }
    assert Tokens(lines, Token).None? <==> HasBlankLine(lines);
    assert Analysis(rows, hasColumn).IndexError? <==> rows != [] && hasColumn && Tokens(lines, Token).None?;
  }

  /** `analyze_processes(df_anomalies)` on a table `parse_log_file` built: the anomaly rows,
      and whether the table has a `top_processes` column. */
  function AnomalyProcesses(table: seq<Entry>): Outcome {
    Analysis(AnomalyRows(table), HasListingColumn(table))
  }

  /** A table whose listings all come at or after `p` has a listing exactly when its
      rows from `p` on have one. */
  lemma ListingColumnSuffix(table: seq<Entry>, p: nat)
    requires p <= |table| && forall i | 0 <= i < |table| :: table[i].topProcesses.Some? ==> p <= i
    ensures HasListingColumn(table) <==> HasListingColumn(table[p..])
  {
    var rest := table[p..];
    if HasListingColumn(table) {
      var i :| 0 <= i < |table| && table[i].topProcesses.Some?;
      assert rest[i - p] == table[i];
    }
    if HasListingColumn(rest) {
      var j :| 0 <= j < |rest| && rest[j].topProcesses.Some?;
      assert table[p + j] == rest[j];
    }
  }

  /** On a parsed file, the column test gives the same answer on the anomaly rows as on the
      whole table: only anomaly rows carry a listing. */
  lemma ListingColumnOfAnomalies(raw: seq<string>)
    ensures HasListingColumn(Parse(raw)) <==> HasListingColumn(AnomalyRows(Parse(raw)))
  {
    ParseShape(raw);
    AnomalyRowsAreBlocks(raw);
    ListingColumnSuffix(Parse(raw), PlainCount(raw));
  }
}
