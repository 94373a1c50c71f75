/**
 * The classifier script `prediction.py`: the feature rows are aligned to the
 * model's input width, each flow is labelled by the model, and the result
 * directory's `predictions.csv`, `attacks.csv`, `normals.csv` and `stats.csv`
 * are appended to, `stats.csv` with a running total.
 */
module Classifier {
  import opened Wrappers

  /** The columns the flows and their feature rows are joined on. */
  datatype FlowKey = FlowKey(sessionId: string, direction: string)
  /** One row of the flows table: a key and its IP. */
  datatype IpRow = IpRow(key: FlowKey, ip: string)
  /** A result row: key and IP, the aligned features, and the model's rounded output. */
  datatype Row = Row(key: FlowKey, ip: string, features: seq<real>, verdict: int)
  /** A line of a result file. */
  datatype Line = Header(names: seq<string>) | Data(row: Row)
  /** A `stats.csv` row: normal, attack and total counts. */
  datatype Stats = Stats(normal: int, attack: int, total: int)

  function Plus(a: Stats, b: Stats): Stats {
    Stats(a.normal + b.normal, a.attack + b.attack, a.total + b.total)
  }

  const Zero: Stats := Stats(0, 0, 0)
  const FallbackColumns: seq<string> := ["session_id", "direction", "ip"]

  /** The number of identifying columns (`ip.session_id`, `meta.direction`, `ip`) before the features. */
  const KeyColumns: nat := 3

  /** A feature row cut or zero-padded to the model's input width. */
  function Align(f: seq<real>, width: nat): (r: seq<real>)
    ensures |r| == width
    ensures forall j :: 0 <= j < width ==> r[j] == if j < |f| then f[j] else 0.0
  {
    if |f| >= width then f[..width] else f + seq(width - |f|, _ => 0.0)
  }

  /** Aligning twice is aligning once, and a row already of the right width is left alone. */
  lemma AlignIdempotent(f: seq<real>, width: nat)
    ensures Align(Align(f, width), width) == Align(f, width)
    ensures |f| == width ==> Align(f, width) == f
  {
  }

  /** A row of the feature frame, in the frame's own order: its key columns and its feature values. */
  datatype FeatureRow = FeatureRow(key: FlowKey, values: seq<real>)

  /** How many rows of the feature frame carry the key. */
  function KeyCount(features: seq<FeatureRow>, k: FlowKey): nat {
    if features == [] then 0
    else KeyCount(features[..|features| - 1], k) + (if features[|features| - 1].key == k then 1 else 0)
  }

  /** A flow is matched when some feature row carries its key. */
  lemma {:induction false} KeyCountPositive(features: seq<FeatureRow>, k: FlowKey)
    ensures KeyCount(features, k) > 0 <==> exists j :: 0 <= j < |features| && features[j].key == k
  {
    if features != [] {
      var init := features[..|features| - 1];
      KeyCountPositive(init, k);
      if features[|features| - 1].key != k {
        forall j | 0 <= j < |features| && features[j].key == k
          ensures exists j' :: 0 <= j' < |init| && init[j'].key == k
        {
          assert init[j] == features[j];
        }
      }
      if exists j :: 0 <= j < |init| && init[j].key == k {
        var j :| 0 <= j < |init| && init[j].key == k;
        assert features[j] == init[j];
      }
    }
  }

  /** How many flows carry the key. */
  function IpCount(ips: seq<IpRow>, k: FlowKey): nat {
    if ips == [] then 0 else (if ips[0].key == k then 1 else 0) + IpCount(ips[1..], k)
  }

  /** The number of rows the inner merge produces: each flow once per feature row of its key. */
  function MatchCount(ips: seq<IpRow>, features: seq<FeatureRow>): nat {
    if ips == [] then 0 else KeyCount(features, ips[0].key) + MatchCount(ips[1..], features)
  }

  /**
   * `pd.merge(ips, features, how='inner', on=[...])` narrowed to the flow
   * columns: in flow order, each flow repeated once per feature row carrying
   * its key, and flows without any feature row dropped.
   */
  function Merge(ips: seq<IpRow>, features: seq<FeatureRow>): (r: seq<IpRow>)
    ensures |r| == MatchCount(ips, features)
    ensures forall x :: x in r <==> x in ips && KeyCount(features, x.key) > 0
  {
    if ips == [] then []
    else
      var rest := Merge(ips[1..], features);
      assert forall x :: x in ips <==> x == ips[0] || x in ips[1..];
      var copies := seq(KeyCount(features, ips[0].key), _ => ips[0]);
      assert forall x :: x in copies <==> KeyCount(features, ips[0].key) > 0 && x == ips[0] by {
        if KeyCount(features, ips[0].key) > 0 {
          assert copies[0] == ips[0];
        }
      }
      copies + rest
  }

  /**
   * Lines 74-79: the model labels every row of the feature frame, and
   * `np.append(ips, res, axis=1)` sets the merged flows beside those rows by
   * position. Row counts that differ raise an error, and no result is
   * written; `None` stands for that.
   */
  function Rows(merged: seq<IpRow>, features: seq<FeatureRow>, verdicts: seq<int>, width: nat): (rows: Option<seq<Row>>)
    requires |verdicts| == |features|
    ensures rows.Some? <==> |merged| == |features|
    ensures rows.Some? ==> (|rows.value| == |features|
      && forall i :: 0 <= i < |features| ==> rows.value[i].ip == merged[i].ip && rows.value[i].verdict == verdicts[i])
  {
    if |merged| != |features| then None
    else Some(seq(|features|, i requires 0 <= i < |features| =>
      Row(merged[i].key, merged[i].ip, Align(features[i].values, width), verdicts[i])))
  }

  /** Adding one feature row adds one merged row per flow carrying its key. */
  lemma {:induction false} MatchCountSnoc(ips: seq<IpRow>, features: seq<FeatureRow>, f: FeatureRow)
    ensures MatchCount(ips, features + [f]) == MatchCount(ips, features) + IpCount(ips, f.key)
  {
    assert (features + [f])[..|features|] == features;
    if ips != [] {
      MatchCountSnoc(ips[1..], features, f);
    }
  }

  /** The merged row count, counted from the feature side: for each feature row, the flows carrying its key. */
  function FeatureSideCount(ips: seq<IpRow>, features: seq<FeatureRow>): nat {
    if features == [] then 0
    else FeatureSideCount(ips, features[..|features| - 1]) + IpCount(ips, features[|features| - 1].key)
  }

  lemma {:induction false} MatchCountByFeatures(ips: seq<IpRow>, features: seq<FeatureRow>)
    ensures MatchCount(ips, features) == FeatureSideCount(ips, features)
  {
    if features == [] {
      MatchCountEmpty(ips);
    } else {
      var init := features[..|features| - 1];
      assert features == init + [features[|features| - 1]];
      MatchCountByFeatures(ips, init);
      MatchCountSnoc(ips, init, features[|features| - 1]);
    }
  }

  lemma {:induction false} MatchCountEmpty(ips: seq<IpRow>)
    ensures MatchCount(ips, []) == 0
  {
    if ips != [] {
      MatchCountEmpty(ips[1..]);
    }
  }

  /** No two flows share a key. */
  predicate DistinctKeys(ips: seq<IpRow>) {
    forall i, j :: 0 <= i < j < |ips| ==> ips[i].key != ips[j].key
  }

  predicate HasFlow(ips: seq<IpRow>, k: FlowKey) {
    exists i :: 0 <= i < |ips| && ips[i].key == k
  }

  /** With distinct keys a key is carried by one flow or by none. */
  lemma {:induction false} IpCountOfDistinct(ips: seq<IpRow>, k: FlowKey)
    requires DistinctKeys(ips)
    ensures IpCount(ips, k) == if HasFlow(ips, k) then 1 else 0
  {
    if ips != [] {
      var rest := ips[1..];
      IpCountOfDistinct(rest, k);
      if HasFlow(rest, k) {
        var i :| 0 <= i < |rest| && rest[i].key == k;
        assert ips[i + 1] == rest[i];
        assert ips[0].key != k;
      }
      if HasFlow(ips, k) && ips[0].key != k {
        var i :| 0 <= i < |ips| && ips[i].key == k;
        assert rest[i - 1] == ips[i];
      }
    }
  }

  /**
   * With distinct flow keys, the merge has at most one row per feature row,
   * strictly fewer as soon as a feature row's key has no flow, and exactly as
   * many when every feature row's key has one.
   */
  lemma {:induction false} FeatureSideBound(ips: seq<IpRow>, features: seq<FeatureRow>)
    requires DistinctKeys(ips)
    ensures FeatureSideCount(ips, features) <= |features|
    ensures (exists j :: 0 <= j < |features| && !HasFlow(ips, features[j].key)) ==> FeatureSideCount(ips, features) < |features|
    ensures (forall j :: 0 <= j < |features| ==> HasFlow(ips, features[j].key)) ==> FeatureSideCount(ips, features) == |features|
  {
    if features != [] {
      var n := |features| - 1;
      var init := features[..n];
      FeatureSideBound(ips, init);
      IpCountOfDistinct(ips, features[n].key);
      if exists j :: 0 <= j < |features| && !HasFlow(ips, features[j].key) {
        var j :| 0 <= j < |features| && !HasFlow(ips, features[j].key);
        if j < n {
          assert init[j] == features[j];
        }
      }
      if forall j :: 0 <= j < |features| ==> HasFlow(ips, features[j].key) {
        forall j | 0 <= j < |init|
          ensures HasFlow(ips, init[j].key)
        {
          assert init[j] == features[j];
        }
      }
    }
  }

  /**
   * When the flows have distinct keys and some feature row has no flow, the
   * merge is shorter than the feature frame: the script stops with an error
   * and writes nothing.
   */
  lemma UnmatchedFeatureRowFails(ips: seq<IpRow>, features: seq<FeatureRow>, verdicts: seq<int>, width: nat)
    requires |verdicts| == |features| && DistinctKeys(ips)
    requires exists j :: 0 <= j < |features| && !HasFlow(ips, features[j].key)
    ensures Rows(Merge(ips, features), features, verdicts, width).None?
  {
    MatchCountByFeatures(ips, features);
    FeatureSideBound(ips, features);
  }

  /** When the flows have distinct keys and every feature row has a flow, the counts agree and the rows are written. */
  lemma MatchedFeatureRowsSucceed(ips: seq<IpRow>, features: seq<FeatureRow>, verdicts: seq<int>, width: nat)
    requires |verdicts| == |features| && DistinctKeys(ips)
    requires forall j :: 0 <= j < |features| ==> HasFlow(ips, features[j].key)
    ensures Rows(Merge(ips, features), features, verdicts, width).Some?
  {
    MatchCountByFeatures(ips, features);
    FeatureSideBound(ips, features);
  }

  /**
   * When the feature frame lists its rows in the merged flows' order, the
   * positional pairing is the pairing by key: every result row carries the
   * features of the feature row with its own key.
   */
  lemma RowsPairOwnFeatures(ips: seq<IpRow>, features: seq<FeatureRow>, verdicts: seq<int>, width: nat)
    requires |verdicts| == |features|
    requires |Merge(ips, features)| == |features|
    requires forall i :: 0 <= i < |features| ==> Merge(ips, features)[i].key == features[i].key
    ensures var rows := Rows(Merge(ips, features), features, verdicts, width);
      rows.Some? && forall i :: 0 <= i < |features| ==>
        rows.value[i].key == features[i].key && rows.value[i].features == Align(features[i].values, width)
  {
  }

  const FirstFlow: FlowKey := FlowKey("1", "0")
  const SecondFlow: FlowKey := FlowKey("2", "0")

  /**
   * Two flows whose feature rows come in the other order: the first flow's
   * address is written beside the second flow's features.
   */
  lemma MisorderedFeaturesSwapFlows()
    ensures var ips := [IpRow(FirstFlow, "10.0.0.1"), IpRow(SecondFlow, "10.0.0.2")];
      var features := [FeatureRow(SecondFlow, [2.0]), FeatureRow(FirstFlow, [1.0])];
      var rows := Rows(Merge(ips, features), features, [1, 0], 1);
      rows.Some? && rows.value[0].ip == "10.0.0.1" && rows.value[0].features == [2.0]
  {
    var ips := [IpRow(FirstFlow, "10.0.0.1"), IpRow(SecondFlow, "10.0.0.2")];
    var features := [FeatureRow(SecondFlow, [2.0]), FeatureRow(FirstFlow, [1.0])];
    var first := features[..1];
    assert first == [FeatureRow(SecondFlow, [2.0])];
    assert first[..0] == [];
    assert KeyCount(first, FirstFlow) == 0;
    assert KeyCount(first, SecondFlow) == 1;
    assert KeyCount(features, FirstFlow) == 1;
    assert KeyCount(features, SecondFlow) == 1;
    assert ips[1..] == [IpRow(SecondFlow, "10.0.0.2")];
    assert Merge(ips, features) == ips;
  }

  /** The rows whose verdict is above zero (`attack`) or exactly zero (`normal`), in order. */
  function Where(rows: seq<Row>, attack: bool): (r: seq<Row>)
    ensures |r| <= |rows|
    ensures forall x :: x in r <==> x in rows && (if attack then x.verdict > 0 else x.verdict == 0)
  {
    if rows == [] then []
    else
      var rest := Where(rows[1..], attack);
      assert forall x :: x in rows <==> x == rows[0] || x in rows[1..];
      if (if attack then rows[0].verdict > 0 else rows[0].verdict == 0) then [rows[0]] + rest else rest
  }

  function Attacks(rows: seq<Row>): seq<Row> { Where(rows, true) }
  function Normals(rows: seq<Row>): seq<Row> { Where(rows, false) }

  /** With verdicts 0 or 1 every row lands in exactly one of the two partitions. */
  lemma {:induction false} PartitionCovers(rows: seq<Row>)
    requires forall i :: 0 <= i < |rows| ==> rows[i].verdict == 0 || rows[i].verdict == 1
    ensures |Attacks(rows)| + |Normals(rows)| == |rows|
    ensures multiset(Attacks(rows)) + multiset(Normals(rows)) == multiset(rows)
  {
    if rows != [] {
      PartitionCovers(rows[1..]);
      assert rows == [rows[0]] + rows[1..];
    }
  }

  /** The header written with `n` columns: the first `n` output names when there are enough, else none. */
  function HeaderFor(columns: seq<string>, n: nat): (h: Option<seq<string>>)
    ensures h.Some? <==> n <= |columns|
    ensures h.Some? ==> |h.value| == n && h.value == columns[..n]
  {
    if n <= |columns| then Some(columns[..n]) else None
  }

  function DataLines(rows: seq<Row>): (ls: seq<Line>)
    ensures |ls| == |rows|
    ensures forall i :: 0 <= i < |ls| ==> ls[i] == Data(rows[i])
  {
    seq(|rows|, i requires 0 <= i < |rows| => Data(rows[i]))
  }

  /** A file after appending `rows`: a new file starts with the header (when there is one), an old one gets none. */
  function Appended(file: Option<seq<Line>>, header: Option<seq<string>>, rows: seq<Row>): (f: seq<Line>)
    ensures file.Some? ==> f == file.value + DataLines(rows)
    ensures file.None? && header.Some? ==> f == [Header(header.value)] + DataLines(rows)
    ensures file.None? && header.None? ==> f == DataLines(rows)
  {
    var start := if file.Some? then file.value else if header.Some? then [Header(header.value)] else [];
    start + DataLines(rows)
  }

  /** A file whose only header, if any, is its first line. */
  predicate HeaderFirst(f: seq<Line>) {
    forall i :: 0 < i < |f| ==> f[i].Data?
  }

  /** Appending never writes a second header. */
  lemma AppendKeepsHeaderFirst(file: Option<seq<Line>>, header: Option<seq<string>>, rows: seq<Row>)
    requires file.Some? ==> HeaderFirst(file.value)
    ensures HeaderFirst(Appended(file, header, rows))
  {
    var f := Appended(file, header, rows);
    forall i | 0 < i < |f|
      ensures f[i].Data?
    {
      if file.Some? && i >= |file.value| {
        assert f[i] == DataLines(rows)[i - |file.value|];
      } else if file.None? && header.Some? {
        assert f[i] == DataLines(rows)[i - 1];
      }
    }
  }

  /** `stats.csv` after one batch: the batch plus the last row read, appended; just the batch when nothing is read. */
  function NextStats(file: Option<seq<Stats>>, batch: Stats): (r: seq<Stats>)
    ensures |r| >= 1
    ensures r[..|r| - 1] == if file.Some? then file.value else []
    ensures r[|r| - 1] == if file.Some? && |file.value| > 0 then Plus(batch, file.value[|file.value| - 1]) else batch
  {
    var prior := if file.Some? then file.value else [];
    var total := if |prior| > 0 then Plus(batch, prior[|prior| - 1]) else batch;
    prior + [total]
  }

  /** What happens to `stats.csv` in one run: a run without flows resets it, any other adds a batch. */
  datatype StatsEvent = Reset | Batch(counts: Stats)

  /** `stats.csv` after a series of runs on a fresh directory. */
  function StatsAfter(events: seq<StatsEvent>): Option<seq<Stats>> {
    if events == [] then None
    else
      var prev := StatsAfter(events[..|events| - 1]);
      match events[|events| - 1]
      case Reset => Some([Zero])
      case Batch(b) => Some(NextStats(prev, b))
  }

  /** The sum of the batches since the last reset. */
  function SinceReset(events: seq<StatsEvent>): Stats {
    if events == [] then Zero
    else
      match events[|events| - 1]
      case Reset => Zero
      case Batch(b) => Plus(b, SinceReset(events[..|events| - 1]))
  }

  /** The last row of `stats.csv` is always the total of every batch since the last run without flows. */
  lemma {:induction false} StatsLastIsRunningTotal(events: seq<StatsEvent>)
    requires events != []
    ensures var f := StatsAfter(events);
      f.Some? && |f.value| >= 1 && f.value[|f.value| - 1] == SinceReset(events)
  {
    var init := events[..|events| - 1];
    if events[|events| - 1].Batch? && init != [] {
      StatsLastIsRunningTotal(init);
    }
  }

  /** The result directory of one prediction; a file is `None` until it is first written. */
  class ResultDir {
    var predictions: Option<seq<Line>>
    var attacks: Option<seq<Line>>
    var normals: Option<seq<Line>>
    var stats: Option<seq<Stats>>

    /** Every file present has its header, if any, only on its first line. */
    ghost predicate Valid()
      reads this
    {
      && (predictions.Some? ==> HeaderFirst(predictions.value))
      && (attacks.Some? ==> HeaderFirst(attacks.value))
      && (normals.Some? ==> HeaderFirst(normals.value))
    }

    /** The directory `os.makedirs` creates: no files yet. */
    constructor()
      ensures Valid()
      ensures predictions.None? && attacks.None? && normals.None? && stats.None?
    {
      predictions, attacks, normals, stats := None, None, None, None;
    }

    /** The files after a run with at least one flow, in terms of the files before it. */
    ghost predicate Appends(rows: seq<Row>, header: Option<seq<string>>,
                            p0: Option<seq<Line>>, a0: Option<seq<Line>>, n0: Option<seq<Line>>, s0: Option<seq<Stats>>)
      reads this
    {
      && predictions == Some(Appended(p0, header, rows))
      && attacks == (if |Attacks(rows)| > 0 then Some(Appended(a0, header, Attacks(rows))) else a0)
      && normals == (if |Normals(rows)| > 0 then Some(Appended(n0, header, Normals(rows))) else n0)
      && stats == Some(NextStats(s0, Stats(|Normals(rows)|, |Attacks(rows)|, |rows|)))
    }

    /**
     * `predict(csv_path, model_path, result_path)`: `ips` and `features` are
     * what the feature extraction produced, `verdicts` the model's rounded
     * output for each row of the feature frame and `width` its input width;
     * `columns` is the list of output column names. `ok` is false when the
     * script stops with an error before writing any result.
     */
    method Predict(ips: seq<IpRow>, features: seq<FeatureRow>, verdicts: seq<int>, width: nat, columns: seq<string>)
      returns (ok: bool)
      requires Valid()
      requires ips != [] ==> |verdicts| == |features|
      modifies this
      ensures Valid()
      ensures ips == [] ==> (ok && stats == Some([Zero])
        && predictions == Some([Header(if |columns| >= 3 then columns[..3] else FallbackColumns)])
        && attacks == old(attacks) && normals == old(normals))
      ensures ips != [] ==> (ok <==> |Merge(ips, features)| == |features|)
      ensures ips != [] && !ok ==> (predictions == old(predictions) && attacks == old(attacks)
        && normals == old(normals) && stats == old(stats))
      ensures ips != [] && ok ==> Appends(Rows(Merge(ips, features), features, verdicts, width).value,
        HeaderFor(columns, KeyColumns + width + 1), old(predictions), old(attacks), old(normals), old(stats))
    {
      if |ips| == 0 {
        stats := Some([Zero]);
        predictions := Some([Header(if |columns| >= 3 then columns[..3] else FallbackColumns)]);
        return true;
      }
      var rows := Rows(Merge(ips, features), features, verdicts, width);
      if rows.None? {
        return false;
      }
      Record(rows.value, HeaderFor(columns, KeyColumns + width + 1));
      ok := true;
    }

    /** Writes the result rows of one run: appended to the predictions, and to the attack or normal file by verdict. */
    method Record(rows: seq<Row>, header: Option<seq<string>>)
      requires Valid()
      modifies this
      ensures Valid()
      ensures Appends(rows, header, old(predictions), old(attacks), old(normals), old(stats))
    {
      AppendKeepsHeaderFirst(predictions, header, rows);
      var p := Some(Appended(predictions, header, rows));
      // The attack and normal files are written only when there are such rows.
      var attackRows, normalRows := Attacks(rows), Normals(rows);
      AppendKeepsHeaderFirst(attacks, header, attackRows);
      AppendKeepsHeaderFirst(normals, header, normalRows);
      var a := if |attackRows| > 0 then Some(Appended(attacks, header, attackRows)) else attacks;
      var n := if |normalRows| > 0 then Some(Appended(normals, header, normalRows)) else normals;
      predictions, attacks, normals := p, a, n;
      stats := Some(NextStats(stats, Stats(|normalRows|, |attackRows|, |rows|)));
    }
  }

  /** Every result row has exactly the model's input width of features. */
  lemma RowsHaveModelWidth(ips: seq<IpRow>, features: seq<FeatureRow>, verdicts: seq<int>, width: nat, r: Row)
    requires |verdicts| == |features|
    requires Rows(Merge(ips, features), features, verdicts, width).Some?
    requires r in Rows(Merge(ips, features), features, verdicts, width).value
    ensures |r.features| == width
  {
  }

  /** What the command line asks for. */
  datatype CliAction = Usage | Run(csvPath: string, modelPath: string, resultPath: string, filterIps: Option<seq<string>>)

  /**
   * The command line, with `argv[0]` the script: fewer than three arguments
   * print the usage; a fourth, non-empty argument is the IP filter, with
   * `decoded` the result of parsing it as JSON (`None` when it does not parse,
   * which means no filter).
   */
  function Cli(argv: seq<string>, decoded: Option<seq<string>>): (a: CliAction)
    ensures a.Usage? <==> |argv| < 4
    ensures a.Run? ==> a.csvPath == argv[1] && a.modelPath == argv[2] && a.resultPath == argv[3]
    ensures a.Run? && a.filterIps.Some? ==> |argv| > 4 && argv[4] != "" && a.filterIps == decoded
    ensures a.Run? && |argv| > 4 && argv[4] != "" ==> a.filterIps == decoded
  {
    if |argv| < 4 then Usage
    else Run(argv[1], argv[2], argv[3], if |argv| > 4 && argv[4] != "" then decoded else None)
  }
}
