/**
 * `build_model_output`: the one-line JSON record written for a model, its
 * twenty fields taken from the score and latency maps of a run.
 */
module JsonOutput {
  import MetricCaller
  import Sums

  /** A field value: text, a score as the run produced it (a number or a
      dictionary), or a latency in milliseconds. */
  datatype Value = Text(text: string) | Metric(score: MetricCaller.Score) | Latency(ms: real)

  /** One metric of the record: its score field and latency field, and the
      keys under which the run stores the two. */
  datatype Column = Column(field: string, latencyField: string, scoreKey: string, latencyKey: string)

  /** The metric columns, in the record's order. */
  const Columns: seq<Column> := [
    Column("net_score", "net_score_latency", "net_score", "net_score_latency"),
    Column("ramp_up_time", "ramp_up_time_latency", "rampup_time_metric", "rampup_time_metric"),
    Column("bus_factor", "bus_factor_latency", "bus_factor_metric", "bus_factor_metric"),
    Column("performance_claims", "performance_claims_latency", "performance_claims_metric", "performance_claims_metric"),
    Column("license", "license_latency", "calculate_license_score", "calculate_license_score"),
    Column("size_score", "size_score_latency", "calculate_size_score", "calculate_size_score"),
    Column("dataset_and_code_score", "dataset_and_code_score_latency", "dataset_metric", "dataset_metric"),
    Column("dataset_quality", "dataset_quality_latency", "dataset_quality", "dataset_quality"),
    Column("code_quality", "code_quality_latency", "code_quality", "code_quality")
  ]

  /** `scores.get(key, 0.00)`. */
  function ScoreOf(scores: map<string, MetricCaller.Score>, key: string): MetricCaller.Score
  {
    if key in scores then scores[key] else MetricCaller.Scalar(0.0)
  }

  /** `latency.get(key, 0)`. */
  function LatencyOf(latency: map<string, real>, key: string): real
  {
    if key in latency then latency[key] else 0.0
  }

  /** The two fields of one column. */
  function ColumnFields(c: Column, scores: map<string, MetricCaller.Score>, latency: map<string, real>): seq<(string, Value)>
  {
    [(c.field, Metric(ScoreOf(scores, c.scoreKey))), (c.latencyField, Latency(LatencyOf(latency, c.latencyKey)))]
  }

  function AllColumnFields(cs: seq<Column>, scores: map<string, MetricCaller.Score>, latency: map<string, real>): (fields: seq<(string, Value)>)
    ensures |fields| == 2 * |cs|
  {
    if cs == [] then [] else ColumnFields(cs[0], scores, latency) + AllColumnFields(cs[1..], scores, latency)
  }

  /** The `output` dictionary, as its entries in insertion order. */
  function Record(name: string, category: string, scores: map<string, MetricCaller.Score>, latency: map<string, real>): seq<(string, Value)>
  {
    [("name", Text(name)), ("category", Text(category))] + AllColumnFields(Columns, scores, latency)
  }

  /** What `build_model_output` writes: the record is printed, then written
      once more, so standard output receives the same line twice. */
  function BuildModelOutput(name: string, category: string, scores: map<string, MetricCaller.Score>, latency: map<string, real>): (lines: seq<seq<(string, Value)>>)
    ensures |lines| == 2 && lines[0] == lines[1]
  {
    var record := Record(name, category, scores, latency);
    [record, record]
  }

  // ------------------------------------------------------------- properties

  function Keys(record: seq<(string, Value)>): seq<string>
  {
    seq(|record|, i requires 0 <= i < |record| => record[i].0)
  }

  const RecordKeys: seq<string> := [
    "name", "category",
    "net_score", "net_score_latency", "ramp_up_time", "ramp_up_time_latency",
    "bus_factor", "bus_factor_latency", "performance_claims", "performance_claims_latency",
    "license", "license_latency", "size_score", "size_score_latency",
    "dataset_and_code_score", "dataset_and_code_score_latency",
    "dataset_quality", "dataset_quality_latency", "code_quality", "code_quality_latency"
  ]

  lemma {:induction false} AllColumnFieldsAt(cs: seq<Column>, scores: map<string, MetricCaller.Score>, latency: map<string, real>, k: nat)
    requires k < |cs|
    ensures var fields := AllColumnFields(cs, scores, latency);
      fields[2 * k] == (cs[k].field, Metric(ScoreOf(scores, cs[k].scoreKey))) &&
      fields[2 * k + 1] == (cs[k].latencyField, Latency(LatencyOf(latency, cs[k].latencyKey)))
    decreases k
  {
    if k > 0 {
      AllColumnFieldsAt(cs[1..], scores, latency, k - 1);
    }
  }

  /** Every record has the same twenty keys, in the same order. */
  lemma RecordHasTwentyKeys(name: string, category: string, scores: map<string, MetricCaller.Score>, latency: map<string, real>)
    ensures Keys(Record(name, category, scores, latency)) == RecordKeys
    ensures |RecordKeys| == 20
  {
    var fields := AllColumnFields(Columns, scores, latency);
    KeysOfColumns(Columns, scores, latency);
    ColumnKeysOfColumns();
    KeysAppend([("name", Text(name)), ("category", Text(category))], fields);
    assert Keys([("name", Text(name)), ("category", Text(category))]) == ["name", "category"];
  }

  /** The keys of the column fields, column by column. */
  function ColumnKeys(cs: seq<Column>): seq<string>
  {
    if cs == [] then [] else [cs[0].field, cs[0].latencyField] + ColumnKeys(cs[1..])
  }

  lemma {:induction false} KeysOfColumns(cs: seq<Column>, scores: map<string, MetricCaller.Score>, latency: map<string, real>)
    ensures Keys(AllColumnFields(cs, scores, latency)) == ColumnKeys(cs)
    decreases |cs|
  {
    if cs != [] {
      KeysOfColumns(cs[1..], scores, latency);
      KeysAppend(ColumnFields(cs[0], scores, latency), AllColumnFields(cs[1..], scores, latency));
    }
  }

  lemma KeysAppend(a: seq<(string, Value)>, b: seq<(string, Value)>)
    ensures Keys(a + b) == Keys(a) + Keys(b)
  {
  }

  lemma ColumnKeysOfColumns()
    ensures ColumnKeys(Columns) == RecordKeys[2..]
  {
    var keys := RecordKeys[2..];
    forall k | 0 <= k < |Columns|
      ensures Columns[k].field == keys[2 * k] && Columns[k].latencyField == keys[2 * k + 1]
    {
      if k == 0 {} else if k == 1 {} else if k == 2 {} else if k == 3 {} else if k == 4 {}
      else if k == 5 {} else if k == 6 {} else if k == 7 {} else {}
    }
    ColumnKeysMatch(Columns, keys);
  }

  /** Columns whose fields are, in order, the given keys. */
  lemma {:induction false} ColumnKeysMatch(cs: seq<Column>, keys: seq<string>)
    requires |keys| == 2 * |cs|
    requires forall k :: 0 <= k < |cs| ==> cs[k].field == keys[2 * k] && cs[k].latencyField == keys[2 * k + 1]
    ensures ColumnKeys(cs) == keys
    decreases |cs|
  {
    if cs != [] {
      forall k | 0 <= k < |cs| - 1
        ensures cs[1..][k].field == keys[2..][2 * k] && cs[1..][k].latencyField == keys[2..][2 * k + 1]
      {
        assert cs[1..][k] == cs[k + 1];
      }
      ColumnKeysMatch(cs[1..], keys[2..]);
      assert keys == [keys[0], keys[1]] + keys[2..];
    }
  }

  /** No key of the record appears twice. */
  lemma RecordKeysDistinct()
    ensures forall i, j :: 0 <= i < j < |RecordKeys| ==> RecordKeys[i] != RecordKeys[j]
  {
  }

  /** The name and the category head the record, copied as given. */
  lemma NameAndCategoryCopied(name: string, category: string, scores: map<string, MetricCaller.Score>, latency: map<string, real>)
    ensures var record := Record(name, category, scores, latency);
      |record| == 20 && record[0] == ("name", Text(name)) && record[1] == ("category", Text(category))
  {
  }

  /** Each metric field holds the run's score under its key, or 0.0; each
      latency field the run's latency, or 0. A dictionary score such as the
      size score's is passed through unchanged. */
  lemma ColumnValues(name: string, category: string, scores: map<string, MetricCaller.Score>, latency: map<string, real>, k: nat)
    requires k < |Columns|
    ensures var record := Record(name, category, scores, latency);
      && record[2 + 2 * k].1 == Metric(if Columns[k].scoreKey in scores then scores[Columns[k].scoreKey] else MetricCaller.Scalar(0.0))
      && record[3 + 2 * k].1 == Latency(if Columns[k].latencyKey in latency then latency[Columns[k].latencyKey] else 0.0)
  {
    AllColumnFieldsAt(Columns, scores, latency, k);
  }

  /** The record only looks at the keys of its columns: scores or latencies
      under any other key are ignored. */
  lemma OtherKeysIgnored(name: string, category: string,
                         s1: map<string, MetricCaller.Score>, l1: map<string, real>,
                         s2: map<string, MetricCaller.Score>, l2: map<string, real>)
    requires forall k :: 0 <= k < |Columns| ==> ScoreOf(s1, Columns[k].scoreKey) == ScoreOf(s2, Columns[k].scoreKey)
    requires forall k :: 0 <= k < |Columns| ==> LatencyOf(l1, Columns[k].latencyKey) == LatencyOf(l2, Columns[k].latencyKey)
    ensures Record(name, category, s1, l1) == Record(name, category, s2, l2)
  {
    ColumnsAgree(Columns, s1, l1, s2, l2);
  }

  lemma {:induction false} ColumnsAgree(cs: seq<Column>,
                                        s1: map<string, MetricCaller.Score>, l1: map<string, real>,
                                        s2: map<string, MetricCaller.Score>, l2: map<string, real>)
    requires forall k :: 0 <= k < |cs| ==> ScoreOf(s1, cs[k].scoreKey) == ScoreOf(s2, cs[k].scoreKey)
    requires forall k :: 0 <= k < |cs| ==> LatencyOf(l1, cs[k].latencyKey) == LatencyOf(l2, cs[k].latencyKey)
    ensures AllColumnFields(cs, s1, l1) == AllColumnFields(cs, s2, l2)
    decreases |cs|
  {
    if cs != [] {
      assert forall k :: 0 <= k < |cs| - 1 ==> cs[1..][k] == cs[k + 1];
      ColumnsAgree(cs[1..], s1, l1, s2, l2);
    }
  }

  /** After a successful run the net score field holds the net score the run
      computed, and its latency the span the run measured. */
  lemma NetScoreReported(name: string, category: string, arrivals: seq<MetricCaller.WorkResult>, totalWeight: real, span: real)
    requires MetricCaller.Collected(arrivals, totalWeight, span).Ok?
    ensures var report := MetricCaller.Collected(arrivals, totalWeight, span).value;
      var record := Record(name, category, report.scores, report.latencies);
      && record[2].1 == Metric(MetricCaller.Scalar(MetricCaller.NetScore(Sums.SumBy(arrivals, MetricCaller.Term), totalWeight)))
      && record[3].1 == Latency(span)
  {
    ColumnValues(name, category, MetricCaller.Collected(arrivals, totalWeight, span).value.scores,
                 MetricCaller.Collected(arrivals, totalWeight, span).value.latencies, 0);
  }
}
