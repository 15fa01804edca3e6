/** The column handling of `main` in train_model.py: training goes ahead only when every
    one of the seven feature columns is in the table read from `baseline_data.csv`;
    otherwise it stops with the list of the missing ones and nothing is fitted or saved.
    The table is then cut down to the seven columns in their fixed order. Scaling, the
    Isolation Forest and saving the artifacts are left to the outcome `Fit`. */
module Trainer {
  import Seqs

  /** `feature_columns`, in order. */
  const FeatureColumns: seq<string> := [
    "cpu_usage", "memory_usage", "disk_io_read", "disk_io_write",
    "network_io_sent", "network_io_received", "log_count"]

  /** A decimal setting: `units / 10^scale`. */
  datatype Decimal = Decimal(units: nat, scale: nat)

  /** 0.0001, the contamination used when none is configured. */
  const DefaultContamination: Decimal := Decimal(1, 4)

  /** A data frame: column names and rows of cells. */
  datatype Table<V> = Table(columns: seq<string>, rows: seq<seq<V>>)

  predicate WellFormed<V>(t: Table<V>) {
    forall r | 0 <= r < |t.rows| :: |t.rows[r]| == |t.columns|
  }

  predicate AllIn(cols: seq<string>, header: seq<string>) {
    forall i | 0 <= i < |cols| :: cols[i] in header
  }

  /** `all(col in df.columns for col in feature_columns)`. */
  predicate AllPresent(header: seq<string>) {
    AllIn(FeatureColumns, header)
  }

  /** `[col for col in cols if col not in header]`. */
  function Absent<T(==,!new)>(cols: seq<T>, header: seq<T>): (r: seq<T>)
    ensures forall c :: c in r <==> c in cols && c !in header
    decreases |cols|
  {
    if cols == [] then []
    else if cols[0] in header then Absent(cols[1..], header)
    else [cols[0]] + Absent(cols[1..], header)
  }

  /** `missing`. */
  function Missing(header: seq<string>): seq<string> {
    Absent(FeatureColumns, header)
  }

  /** The elements of `r` come from `cols`, in the order they have there. */
  ghost predicate InOrderOf<T>(r: seq<T>, cols: seq<T>) {
    && (forall i | 0 <= i < |r| :: r[i] in cols)
    && (forall a, b | 0 <= a < b < |r| :: Seqs.IndexOf(cols, r[a]) < Seqs.IndexOf(cols, r[b]))
  }

  lemma DistinctTail<T>(cols: seq<T>)
    requires Seqs.Distinct(cols) && cols != []
    ensures Seqs.Distinct(cols[1..]) && cols[0] !in cols[1..]
  {
    var tail := cols[1..];
    forall a, b | 0 <= a < b < |tail|
      ensures tail[a] != tail[b]
    {
      assert tail[a] == cols[a + 1] && tail[b] == cols[b + 1];
    }
    forall i | 0 <= i < |tail|
      ensures tail[i] != cols[0]
    {
      assert tail[i] == cols[i + 1];
    }
  }

  lemma IndexOfTail<T>(cols: seq<T>, y: T)
    requires cols != [] && y in cols[1..] && y != cols[0]
    ensures Seqs.IndexOf(cols, y) == 1 + Seqs.IndexOf(cols[1..], y)
  {
  }

  /** `Absent` keeps the order of `cols`. */
  lemma {:induction false} AbsentInOrder<T(!new)>(cols: seq<T>, header: seq<T>)
    requires Seqs.Distinct(cols)
    ensures InOrderOf(Absent(cols, header), cols)
    decreases |cols|
  {
    if cols != [] {
      var tail := cols[1..];
      DistinctTail(cols);
      AbsentInOrder(tail, header);
      var q := Absent(tail, header);
      forall i | 0 <= i < |q|
        ensures q[i] in tail && Seqs.IndexOf(cols, q[i]) == 1 + Seqs.IndexOf(tail, q[i])
      {
        assert q[i] in q;
        IndexOfTail(cols, q[i]);
      }
      if cols[0] !in header {
        var r := Absent(cols, header);
        assert r == [cols[0]] + q;
        forall i | 1 <= i < |r|
          ensures r[i] == q[i - 1]
        {
        }
      }
    }
  }

  lemma AbsentEmpty(cols: seq<string>, header: seq<string>)
    ensures AllIn(cols, header) <==> Absent(cols, header) == []
  {
    var m := Absent(cols, header);
    if !AllIn(cols, header) {
      var i :| 0 <= i < |cols| && cols[i] !in header;
      assert cols[i] in m;
    }
  }

  lemma FeatureColumnsDistinct()
    ensures Seqs.Distinct(FeatureColumns)
  {
  }

  /** The missing columns are exactly the feature columns the header lacks, each once, in
      feature order; there are none exactly when all are present. */
  lemma MissingExact(header: seq<string>)
    ensures forall c :: c in Missing(header) <==> c in FeatureColumns && c !in header
    ensures InOrderOf(Missing(header), FeatureColumns)
    ensures AllPresent(header) <==> Missing(header) == []
  {
    FeatureColumnsDistinct();
    AbsentInOrder(FeatureColumns, header);
    AbsentEmpty(FeatureColumns, header);
  }

  /** `df[c]`: the cells of column `c`, row by row. */
  function Column<V>(t: Table<V>, c: string): seq<V>
    requires WellFormed(t) && c in t.columns
  {
    seq(|t.rows|, r requires 0 <= r < |t.rows| => t.rows[r][Seqs.IndexOf(t.columns, c)])
  }

  /** `df[feature_columns]`. */
  function Project<V>(t: Table<V>): (p: Table<V>)
    requires WellFormed(t) && AllPresent(t.columns)
    ensures p.columns == FeatureColumns && |p.rows| == |t.rows| && WellFormed(p)
  {
    Table(FeatureColumns,
          seq(|t.rows|, r requires 0 <= r < |t.rows| =>
            seq(|FeatureColumns|, k requires 0 <= k < |FeatureColumns| =>
              t.rows[r][Seqs.IndexOf(t.columns, FeatureColumns[k])])))
  }

  /** The projection has the seven feature columns in order, each holding the same cells as
      the column of that name in the input, and no other column. */
  lemma ProjectKeepsColumns<V>(t: Table<V>)
    requires WellFormed(t) && AllPresent(t.columns)
    ensures Project(t).columns == FeatureColumns
    ensures forall c | c in FeatureColumns :: c in t.columns && Column(Project(t), c) == Column(t, c)
  {
    FeatureColumnsDistinct();
    forall c | c in FeatureColumns
      ensures c in t.columns && Column(Project(t), c) == Column(t, c)
    {
      var k := Seqs.IndexOf(FeatureColumns, c);
      assert FeatureColumns[k] == c;
      forall k' | 0 <= k' < |FeatureColumns| && FeatureColumns[k'] == c
        ensures k' == k
      {
      }
    }
  }

  /** Projecting twice is projecting once. */
  lemma ProjectIdempotent<V>(t: Table<V>)
    requires WellFormed(t) && AllPresent(t.columns)
    ensures AllPresent(Project(t).columns)
    ensures Project(Project(t)) == Project(t)
  {
    FeatureColumnsDistinct();
    var p := Project(t);
    forall k | 0 <= k < |FeatureColumns|
      ensures Seqs.IndexOf(FeatureColumns, FeatureColumns[k]) == k
    {
    }
    var pp := Project(p);
    forall r | 0 <= r < |p.rows|
      ensures pp.rows[r] == p.rows[r]
    {
      forall k | 0 <= k < |FeatureColumns|
        ensures pp.rows[r][k] == p.rows[r][k]
      {
        assert Seqs.IndexOf(FeatureColumns, FeatureColumns[k]) == k;
      }
    }
  }

  /** `DETECTION_SETTINGS.get("contamination", 0.0001)`. */
  function Contamination(settings: map<string, Decimal>): Decimal {
    if "contamination" in settings then settings["contamination"] else DefaultContamination
  }

  /** How `main` ends once the table is read: stopped on missing columns, or the scaler and
      forest fitted on `features` with `contamination` and both saved. */
  datatype Training<V> = MissingColumns(missing: seq<string>) | Fit(features: Table<V>, contamination: Decimal)

  function Train<V>(t: Table<V>, settings: map<string, Decimal>): Training<V>
    requires WellFormed(t)
  {
    if !AllPresent(t.columns) then MissingColumns(Missing(t.columns))
    else Fit(Project(t), Contamination(settings))
  }

  /** Training stops, naming a non-empty list of missing columns, exactly when a feature
      column is absent; otherwise it fits on the seven feature columns, with the configured
      contamination or 0.0001 when there is none. */
  lemma TrainCases<V>(t: Table<V>, settings: map<string, Decimal>)
    requires WellFormed(t)
    ensures Train(t, settings).MissingColumns? <==> exists c | c in FeatureColumns :: c !in t.columns
    ensures Train(t, settings).MissingColumns? ==>
      Train(t, settings).missing != [] && Train(t, settings).missing == Missing(t.columns)
    ensures Train(t, settings).Fit? ==>
      && Train(t, settings).features.columns == FeatureColumns
      && (forall c | c in FeatureColumns :: c in t.columns && Column(Train(t, settings).features, c) == Column(t, c))
      && ("contamination" !in settings ==> Train(t, settings).contamination == DefaultContamination)
      && ("contamination" in settings ==> Train(t, settings).contamination == settings["contamination"])
  {
    MissingExact(t.columns);
    if AllPresent(t.columns) {
      ProjectKeepsColumns(t);
    } else {
      var i :| 0 <= i < |FeatureColumns| && FeatureColumns[i] !in t.columns;
      assert FeatureColumns[i] in FeatureColumns;
    }
  }
}
