/**
 * The repository's demonstration scorers as the orchestrator sees them:
 * how each call ends, and what the worker and the aggregation then make of
 * it. `failing_task` always raises, `log_message` returns a bare number
 * instead of a pair, `code_quality_check` raises for a missing file and
 * otherwise scores out of 100, and `calculate_size_score` returns its
 * per-platform dictionary.
 */
module ScorerFixtures {
  import opened Wrappers
  import opened Sums
  import MetricCaller
  import CodeQualityCheck
  import SizeScore

  /** `failing_task`: raises `ValueError` every time. */
  function FailingTask(): (o: MetricCaller.Outcome)
    ensures o.Raised?
  {
    MetricCaller.Raised
  }

  /** `log_message`: returns one float, which the worker cannot unpack into
      a score and a time. */
  function LogMessage(message: string): (o: MetricCaller.Outcome)
    ensures !o.Pair?
  {
    MetricCaller.NotAPair
  }

  /** `code_quality_check` on a file's content (`None` when the file does
      not exist), taking `time` seconds. */
  function CodeQualityCheckCall(content: Option<string>, time: real): (o: MetricCaller.Outcome)
    ensures o.Raised? <==> content.None?
    ensures o.Pair? ==> o.time == Some(time) && o.score.Scalar? && 0.0 <= o.score.value <= 100.0
  {
    match CodeQualityCheck.TodoScore(content)
    case Err(_) => MetricCaller.Raised
    case Ok(score) => MetricCaller.Pair(MetricCaller.Scalar(score as real), Some(time))
  }

  /** `calculate_size_score` for a size in bytes: the dictionary and the
      time. */
  function SizeScoreCall(bytes: int, time: real): (o: MetricCaller.Outcome)
    ensures o.Pair? && o.time == Some(time) && o.score.Composite?
  {
    MetricCaller.Pair(MetricCaller.Composite(SizeScore.SizeEntries(SizeScore.SizeInGb(bytes))), Some(time))
  }

  // ------------------------------------------------------------- properties

  /** Neither a raising scorer nor one returning a bare number contributes:
      the worker reports 0.0 with its own elapsed time and the task's
      weight. */
  lemma FailuresReportZero(t: MetricCaller.Task, message: string, elapsed: real)
    ensures MetricCaller.Worker(t, MetricCaller.ScorerRun(FailingTask(), elapsed)) ==
      MetricCaller.WorkResult(MetricCaller.Scalar(0.0), elapsed, t.weight, t.name)
    ensures MetricCaller.Worker(t, MetricCaller.ScorerRun(LogMessage(message), elapsed)) ==
      MetricCaller.WorkResult(MetricCaller.Scalar(0.0), elapsed, t.weight, t.name)
    ensures MetricCaller.Worker(t, MetricCaller.ScorerRun(CodeQualityCheckCall(None, elapsed), elapsed)) ==
      MetricCaller.WorkResult(MetricCaller.Scalar(0.0), elapsed, t.weight, t.name)
  {
  }

  /** A failed task still weighs in: next to a task scoring `x` with weight
      1, a failing task of weight 3 brings the net score down to `x / 4`. */
  lemma FailedWeightStillCounts(x: real, scorer: string, time: real, failing: MetricCaller.Task, elapsed: real, span: real)
    requires scorer != MetricCaller.SizeScorer && failing.weight == 3.0
    ensures var ok := MetricCaller.WorkResult(MetricCaller.Scalar(x), time, 1.0, scorer);
      var failed := MetricCaller.Worker(failing, MetricCaller.ScorerRun(FailingTask(), elapsed));
      var c := MetricCaller.Collected([ok, failed], 4.0, span);
      c.Ok? && c.value.scores["net_score"] == MetricCaller.Scalar(x / 4.0)
  {
    var ok := MetricCaller.WorkResult(MetricCaller.Scalar(x), time, 1.0, scorer);
    var failed := MetricCaller.Worker(failing, MetricCaller.ScorerRun(FailingTask(), elapsed));
    var a := [ok, failed];
    MetricCaller.FirstFailureNone(a);
    assert a[..1] == [ok];
    SumBySingle(ok, MetricCaller.Term);
    assert MetricCaller.Term(ok) == x * 1.0;
    assert MetricCaller.Term(failed) == 0.0;
    assert SumBy(a, MetricCaller.Term) == SumBy([ok], MetricCaller.Term) + MetricCaller.Term(failed);
  }

  /** The size scorer's dictionary weighs in as its mean, between 0.25 and
      1, times the task's weight. */
  lemma SizeScoreWeighsItsMean(t: MetricCaller.Task, bytes: int, time: real)
    requires t.name == MetricCaller.SizeScorer
    ensures var e := MetricCaller.Effective(MetricCaller.Worker(t, MetricCaller.ScorerRun(SizeScoreCall(bytes, time), time)));
      e.Some? && 0.25 <= e.value <= 1.0
    ensures MetricCaller.Term(MetricCaller.Worker(t, MetricCaller.ScorerRun(SizeScoreCall(bytes, time), time))) ==
      MetricCaller.Mean(SizeScore.SizeEntries(SizeScore.SizeInGb(bytes))) * t.weight
  {
    SizeScore.MeanInRange(SizeScore.SizeInGb(bytes));
  }

  /** The TODO scorer works on a 0..100 scale, so the unit range the
      aggregation otherwise keeps is not kept with it: a single clean file
      of any positive weight gives a net score of 100. */
  lemma TodoScaleLeavesUnitRange(t: MetricCaller.Task, content: string, time: real, span: real)
    requires t.name != MetricCaller.SizeScorer && t.weight > 0.0
    requires CodeQualityCheck.TodoCount(content) == 0
    ensures var r := MetricCaller.Worker(t, MetricCaller.ScorerRun(CodeQualityCheckCall(Some(content), time), time));
      var c := MetricCaller.Collected([r], t.weight, span);
      c.Ok? && c.value.scores["net_score"] == MetricCaller.Scalar(100.0)
  {
    var r := MetricCaller.Worker(t, MetricCaller.ScorerRun(CodeQualityCheckCall(Some(content), time), time));
    MetricCaller.FirstFailureNone([r]);
    SumBySingle(r, MetricCaller.Term);
    assert MetricCaller.Term(r) == 100.0 * t.weight;
  }
}
