/**
 * `calculate_size_score`: a model's size in bytes scored per deployment
 * platform by a threshold table. The dictionary it returns is kept as the
 * list of its entries in insertion order, which is how the orchestrator's
 * composite scores are represented.
 */
module SizeScore {
  import opened Sums
  import MetricCaller

  const BytesPerGb: int := 1024 * 1024 * 1024

  /** `model_size_bytes / (1024 * 1024 * 1024)`. */
  function SizeInGb(bytes: int): real
  {
    bytes as real / BytesPerGb as real
  }

  /** A three-step table: 1.0 up to `full`, 0.5 up to `half`, else 0.0. */
  function Tier(gb: real, full: real, half: real): real
  {
    if gb <= full then 1.0 else if gb <= half then 0.5 else 0.0
  }

  function RaspberryPi(gb: real): real { Tier(gb, 0.1, 0.5) }

  function JetsonNano(gb: real): real { Tier(gb, 0.5, 2.0) }

  function DesktopPc(gb: real): real { Tier(gb, 5.0, 10.0) }

  function AwsServer(gb: real): real { 1.0 }

  /** The returned dictionary, in the order its keys are assigned. */
  function SizeEntries(gb: real): seq<(string, real)>
  {
    [("raspberry_pi", RaspberryPi(gb)), ("jetson_nano", JetsonNano(gb)),
     ("desktop_pc", DesktopPc(gb)), ("aws_server", AwsServer(gb))]
  }

  /** `calculate_size_score`, its dictionary filled key by key. */
  method CalculateSizeScore(bytes: int) returns (scores: seq<(string, real)>)
    ensures scores == SizeEntries(SizeInGb(bytes))
  {
    var gb := bytes as real / (1024 * 1024 * 1024) as real;
    scores := [];
    if gb <= 0.1 {
      scores := scores + [("raspberry_pi", 1.0)];
    } else if gb <= 0.5 {
      scores := scores + [("raspberry_pi", 0.5)];
    } else {
      scores := scores + [("raspberry_pi", 0.0)];
    }
    if gb <= 0.5 {
      scores := scores + [("jetson_nano", 1.0)];
    } else if gb <= 2.0 {
      scores := scores + [("jetson_nano", 0.5)];
    } else {
      scores := scores + [("jetson_nano", 0.0)];
    }
    if gb <= 5.0 {
      scores := scores + [("desktop_pc", 1.0)];
    } else if gb <= 10.0 {
      scores := scores + [("desktop_pc", 0.5)];
    } else {
      scores := scores + [("desktop_pc", 0.0)];
    }
    scores := scores + [("aws_server", 1.0)];
  }

  // ------------------------------------------------------------- properties

  /** The keys are exactly the four platforms, each once, in this order. */
  lemma SizeKeys(gb: real)
    ensures var e := SizeEntries(gb);
      |e| == 4 && e[0].0 == "raspberry_pi" && e[1].0 == "jetson_nano" && e[2].0 == "desktop_pc" && e[3].0 == "aws_server"
  {
  }

  predicate IsStep(s: real) { s == 0.0 || s == 0.5 || s == 1.0 }

  /** Every platform's score is one of 0.0, 0.5 and 1.0. */
  lemma ScoresAreSteps(gb: real)
    ensures forall i :: 0 <= i < |SizeEntries(gb)| ==> IsStep(SizeEntries(gb)[i].1)
  {
  }

  /** A larger model never scores higher on any platform. */
  lemma ScoresNeverIncrease(small: real, large: real)
    requires small <= large
    ensures forall i :: 0 <= i < 4 ==> SizeEntries(large)[i].1 <= SizeEntries(small)[i].1
  {
  }

  /** The platforms are ordered by capacity: a model scores at least as well
      on each platform as on the one before it. */
  lemma PlatformsOrdered(gb: real)
    ensures RaspberryPi(gb) <= JetsonNano(gb) <= DesktopPc(gb) <= AwsServer(gb)
  {
  }

  /** The thresholds, in bytes, at which the Raspberry Pi score drops. */
  lemma RaspberryPiThresholds(bytes: int)
    ensures RaspberryPi(SizeInGb(bytes)) == 1.0 <==> bytes as real <= 0.1 * BytesPerGb as real
    ensures RaspberryPi(SizeInGb(bytes)) == 0.0 <==> bytes as real > 0.5 * BytesPerGb as real
  {
  }

  /** The mean the orchestrator takes of this dictionary lies in [0.25, 1]:
      the server always scores 1.0 and no score is negative. */
  lemma MeanInRange(gb: real)
    ensures 0.25 <= MetricCaller.Mean(SizeEntries(gb)) <= 1.0
  {
    var e := SizeEntries(gb);
    var f := MetricCaller.EntryValue;
    assert SumBy(e[..1], f) == RaspberryPi(gb) by {
      assert e[..1][..0] == [];
    }
    assert e[..2][..1] == e[..1];
    assert SumBy(e[..2], f) == SumBy(e[..1], f) + JetsonNano(gb);
    assert e[..3][..2] == e[..2];
    assert SumBy(e[..3], f) == SumBy(e[..2], f) + DesktopPc(gb);
    assert e[..4] == e;
    assert SumBy(e, f) == RaspberryPi(gb) + JetsonNano(gb) + DesktopPc(gb) + AwsServer(gb);
  }
}
