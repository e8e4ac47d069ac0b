/**
 * `code_quality`: the score PyLint prints for a repository, read from its
 * output and scaled from the `/10` scale to one tenth.
 */
module CodeQuality {
  import opened Wrappers
  import opened Text

  /** One `pylint <path> --score=y` run: what it printed, or the command
      could not be found. */
  datatype PylintRun = Ran(stdout: string, stderr: string) | NotFound

  /** The words of the rating line's marker, `Your code has been rated at`. */
  const MarkerWords: seq<string> := ["Your", "code", "has", "been", "rated", "at"]

  /** The marker: its words, one space between each. */
  const Marker: string := Join(MarkerWords, ' ')

  /** `result.stdout or result.stderr`. */
  function Output(run: PylintRun): string
    requires run.Ran?
  {
    if run.stdout != "" then run.stdout else run.stderr
  }

  /** The first of the space-separated parts that holds a `/`, if any. */
  function FirstSlashPart(parts: seq<string>): (r: Option<string>)
    ensures r.Some? ==> '/' in r.value
  {
    if parts == [] then None
    else if '/' in parts[0] then Some(parts[0])
    else FirstSlashPart(parts[1..])
  }

  /** `part.split("/")[0]`. */
  function BeforeSlash(part: string): string { part[..IndexOf(part, '/')] }

  /** How the scan of the output ends: a score, no rating line, or a rating
      that `float()` rejects (which raises and is caught). */
  datatype Scan = Scored(value: real) | NotRated | Unparsable

  /** `float(score_str) / 10.0`, or the error `float()` raises. */
  function RatedNumber(number: string): Scan
  {
    match ParseFloat(number)
    case None => Unparsable
    case Some(v) => Scored(v / 10.0)
  }

  /** The verdict of the part found: its number before the slash. */
  function Rating(part: string): Scan { RatedNumber(BeforeSlash(part)) }

  /** What one output line decides: nothing, unless it carries the marker
      and a part holding `/`. */
  function LineVerdict(line: string, marker: string): Option<Scan>
  {
    if !Contains(line, marker) then None
    else match FirstSlashPart(Split(line, ' '))
      case None => None
      case Some(part) => Some(Rating(part))
  }

  /** The scan over the output lines: the first line with a verdict decides;
      a marker line with no part holding `/` is passed over. */
  function ScanLines(lines: seq<string>, marker: string): Scan
  {
    if lines == [] then NotRated
    else match LineVerdict(lines[0], marker)
      case Some(verdict) => verdict
      case None => ScanLines(lines[1..], marker)
  }

  /** The score `code_quality` returns; 0.0 is its default for every failure. */
  function QualityScore(run: PylintRun): real
  {
    if run.NotFound? then 0.0
    else match ScanLines(SplitLines(Output(run)), Marker)
      case Scored(v) => v
      case _ => 0.0
  }

  /** `code_quality` once PyLint has run: the loop over the output lines,
      left at the first score found. */
  method CodeQualityScore(run: PylintRun) returns (score: real)
    ensures score == QualityScore(run)
  {
    score := 0.0;
    if run.NotFound? {
      return;
    }
    var output := if run.stdout != "" then run.stdout else run.stderr;
    var lines := SplitLines(output);
    var foundScore := false;
    var i := 0;
    while i < |lines| && !foundScore
      invariant 0 <= i <= |lines|
      invariant !foundScore ==> score == 0.0 && ScanLines(lines, Marker) == ScanLines(lines[i..], Marker)
      invariant foundScore ==> ScanLines(lines, Marker) == Scored(score)
    {
      LineDecides(lines, i, Marker);
      var verdict := LineRating(lines[i], Marker);
      if verdict.Some? {
        if !verdict.value.Scored? {
          // `float()` raised; the handler keeps the default score
          return 0.0;
        }
        score := verdict.value.value;
        foundScore := true;
      }
      i := i + 1;
    }
  }

  /** The inner loop over the space-separated parts of one line. */
  method LineRating(line: string, marker: string) returns (v: Option<Scan>)
    ensures v == LineVerdict(line, marker)
  {
    if !Contains(line, marker) {
      return None;
    }
    var parts := Split(line, ' ');
    var j := 0;
    while j < |parts|
      invariant 0 <= j <= |parts|
      invariant FirstSlashPart(parts) == FirstSlashPart(parts[j..])
    {
      SlashStep(parts, j);
      var part := parts[j];
      if '/' in part {
        var parsed := ParseFloat(part[..IndexOf(part, '/')]);
        if parsed.None? {
          return Some(Unparsable);
        }
        return Some(Scored(parsed.value / 10.0));
      }
      j := j + 1;
    }
    assert parts[j..] == [];
    v := None;
  }

  lemma LineDecides(lines: seq<string>, i: nat, marker: string)
    requires i < |lines|
    ensures ScanLines(lines[i..], marker) ==
      if LineVerdict(lines[i], marker).Some? then LineVerdict(lines[i], marker).value else ScanLines(lines[i + 1..], marker)
  {
    assert lines[i..][1..] == lines[i + 1..];
  }

  lemma SlashStep(parts: seq<string>, j: nat)
    requires j < |parts|
    ensures FirstSlashPart(parts[j..]) == if '/' in parts[j] then Some(parts[j]) else FirstSlashPart(parts[j + 1..])
  {
    assert parts[j..][1..] == parts[j + 1..];
  }

  // ------------------------------------------------------------- properties

  /** Without PyLint, or without a line carrying the marker, the score is 0.0. */
  lemma {:induction false} NoRatingLine(lines: seq<string>, marker: string)
    requires forall k :: 0 <= k < |lines| ==> !Contains(lines[k], marker)
    ensures ScanLines(lines, marker) == NotRated
    decreases |lines|
  {
    if lines != [] {
      assert forall k :: 0 <= k < |lines| - 1 ==> lines[1..][k] == lines[k + 1];
      NoRatingLine(lines[1..], marker);
    }
  }

  lemma MissingPylintScoresZero()
    ensures QualityScore(NotFound) == 0.0
  {
  }

  /** Lines before the first rating line do not matter. */
  lemma {:induction false} EarlierLinesIgnored(before: seq<string>, after: seq<string>, marker: string)
    requires forall k :: 0 <= k < |before| ==> !Contains(before[k], marker)
    ensures ScanLines(before + after, marker) == ScanLines(after, marker)
    decreases |before|
  {
    if before != [] {
      assert (before + after)[0] == before[0] && !Contains(before[0], marker);
      assert (before + after)[1..] == before[1..] + after;
      assert forall k :: 0 <= k < |before| - 1 ==> before[1..][k] == before[k + 1];
      EarlierLinesIgnored(before[1..], after, marker);
    } else {
      assert before + after == after;
    }
  }

  /** Only the first rating line counts, whatever follows it. */
  lemma LaterLinesIgnored(line: string, after1: seq<string>, after2: seq<string>, marker: string)
    requires Contains(line, marker) && FirstSlashPart(Split(line, ' ')).Some?
    ensures ScanLines([line] + after1, marker) == ScanLines([line] + after2, marker)
  {
    assert ([line] + after1)[0] == line;
    assert ([line] + after2)[0] == line;
  }

  lemma MarkerSplit()
    ensures Split(Marker, ' ') == MarkerWords
  {
    assert forall k :: 0 <= k < |MarkerWords| ==> ' ' !in MarkerWords[k];
    SplitJoin(MarkerWords, ' ');
  }

  lemma {:induction false} FirstSlashPartAppend(a: seq<string>, b: seq<string>)
    requires forall k :: 0 <= k < |a| ==> '/' !in a[k]
    ensures FirstSlashPart(a + b) == FirstSlashPart(b)
    decreases |a|
  {
    if a != [] {
      assert (a + b)[0] == a[0] && '/' !in a[0];
      assert (a + b)[1..] == a[1..] + b;
      assert forall k :: 0 <= k < |a| - 1 ==> a[1..][k] == a[k + 1];
      FirstSlashPartAppend(a[1..], b);
    } else {
      assert a + b == b;
    }
  }

  /** The parts of a rating line: the marker's six words, then the parts of
      what follows it. */
  lemma RatingLineParts(tail: string)
    ensures Split(Marker + " " + tail, ' ') == MarkerWords + Split(tail, ' ')
  {
    assert Marker + " " + tail == Marker + [' '] + tail;
    SplitAppend(Marker, tail, ' ');
    MarkerSplit();
  }

  /** The first part after the marker starts with the number and its slash. */
  lemma NumberPart(v: string, rest: string)
    requires ' ' !in v && '/' !in v
    ensures var parts := Split(v + "/" + rest, ' ');
      FirstSlashPart(parts) == Some(parts[0]) && BeforeSlash(parts[0]) == v
  {
    var tail := v + "/" + rest;
    var parts := Split(tail, ' ');
    SplitFirst(tail, ' ');
    IndexOfFirst(tail, ' ');
    assert forall k :: 0 <= k < |v| ==> tail[k] == v[k];
    assert tail[|v|] == '/';
    assert IndexOf(tail, ' ') > |v|;
    assert parts[0][|v|] == '/';
    IndexOfFirst(parts[0], '/');
    assert IndexOf(parts[0], '/') == |v|;
    assert '/' in parts[0];
  }

  lemma MarkerWordsNoSlash()
    ensures forall k :: 0 <= k < |MarkerWords| ==> '/' !in MarkerWords[k]
  {
  }

  /** The marker's words hold no slash, so the search passes over them. */
  lemma MarkerWordsPassed(tail: string)
    ensures FirstSlashPart(Split(Marker + " " + tail, ' ')) == FirstSlashPart(Split(tail, ' '))
  {
    RatingLineParts(tail);
    MarkerWordsNoSlash();
    FirstSlashPartAppend(MarkerWords, Split(tail, ' '));
  }

  lemma MarkerLeads(tail: string)
    ensures Contains(Marker + " " + tail, Marker)
  {
    assert IsPrefix(Marker, Marker + " " + tail);
  }

  /** A line that starts with the marker is judged by what follows it. */
  lemma MarkerLine(tail: string)
    ensures var line := Marker + " " + tail;
      Contains(line, Marker) && FirstSlashPart(Split(line, ' ')) == FirstSlashPart(Split(tail, ' '))
  {
    MarkerWordsPassed(tail);
    MarkerLeads(tail);
  }

  lemma VerdictAfterMarker(line: string, tail: string)
    requires Contains(line, Marker) && FirstSlashPart(Split(line, ' ')) == FirstSlashPart(Split(tail, ' '))
    requires FirstSlashPart(Split(tail, ' ')).Some?
    ensures LineVerdict(line, Marker) == Some(Rating(FirstSlashPart(Split(tail, ' ')).value))
  {
  }

  lemma RatingOfPart(part: string, v: string)
    requires BeforeSlash(part) == v
    ensures Rating(part) == RatedNumber(v)
  {
  }

  /** PyLint's own rating line `Your code has been rated at <v>/<rest>`:
      the number before the slash, divided by ten, or the parse failure. */
  lemma RatingLine(tail: string, v: string, rest: string)
    requires tail == v + "/" + rest && ' ' !in v && '/' !in v
    ensures LineVerdict(Marker + " " + tail, Marker) == Some(RatedNumber(v))
  {
    MarkerLine(tail);
    NumberPart(v, rest);
    VerdictAfterMarker(Marker + " " + tail, tail);
    RatingOfPart(Split(tail, ' ')[0], v);
  }

  /** The first line with a verdict decides the score: its rating, or 0.0
      when `float()` rejects the number, whatever later lines say. */
  lemma ScoreOfFirstRatedLine(run: PylintRun, before: seq<string>, line: string, after: seq<string>, verdict: Scan)
    requires run.Ran? && SplitLines(Output(run)) == before + [line] + after
    requires forall k :: 0 <= k < |before| ==> !Contains(before[k], Marker)
    requires LineVerdict(line, Marker) == Some(verdict)
    ensures QualityScore(run) == if verdict.Scored? then verdict.value else 0.0
  {
    assert before + [line] + after == before + ([line] + after);
    EarlierLinesIgnored(before, [line] + after, Marker);
    assert ([line] + after)[0] == line;
  }

  /** The rating scales linearly: PyLint's `x/10` becomes `x / 10`, with no
      clamping (a negative PyLint score stays negative). */
  lemma RatedNumberValue(v: string, x: real)
    requires ParseFloat(v) == Some(x)
    ensures RatedNumber(v) == Scored(x / 10.0)
  {
  }
}
